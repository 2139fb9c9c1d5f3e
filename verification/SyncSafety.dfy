/** What every reachable state of the sync-rule protocol keeps, whatever the interleaving,
    crashes and lost responses. */
module SyncSafety {
  import opened Results
  import opened Keys
  import Text
  import opened Table
  import opened SyncProtocol

  // ---- Facts about one state ----

  ghost predicate InHistory(s: State, scope: Scope, revision: nat, hash: string) {
    var id := RevisionID(scope, revision);
    id in s.store.history && s.store.history[id].value.hash == hash
  }

  /** Core installed exactly this rule set at its revision. */
  ghost predicate WasInstalled(s: State, scope: Scope, rules: RuleSet) {
    var id := RevisionID(scope, rules.revision);
    0 < rules.revision <= CoreAt(s.core, scope).revision && id in s.timeline && s.timeline[id] == rules
  }

  ghost predicate IsTrue(s: State, r: Revision) { WasInstalled(s, r.scope, RuleSet(r.revision, r.hash, r.rules)) }

  ghost predicate HeadAtLeast(s: State, scope: Scope, revision: nat) {
    scope in s.store.heads && s.store.heads[scope].value.revision >= revision
  }

  /** If the head still has this version, it is below the revision. */
  ghost predicate HeadBelow(s: State, scope: Scope, revision: nat, version: nat) {
    version != 0 ==>
      scope in s.store.heads && s.store.heads[scope].version >= version
      && (s.store.heads[scope].version == version ==> s.store.heads[scope].value.revision < revision)
  }

  /** A pending record stands behind this request. */
  ghost predicate Backed(s: State, m: Message) {
    m.id in s.store.pending
    && var p := s.store.pending[m.id].value; p.expected == m.expected && p.target == m.target && p.rules == m.rules
  }

  /** Core may still act on the request only if a pending record stands behind it. */
  ghost predicate Covered(s: State, m: Message) {
    m.target == m.expected + 1 && (m.target > CoreAt(s.core, m.id.scope).revision ==> Backed(s, m))
  }

  ghost predicate Recorded(s: State, scope: Scope) {
    RevisionID(scope, CoreAt(s.core, scope).revision) in s.store.history
  }

  /** Core's current rules of this scope, installed on behalf of a request, are remembered. */
  ghost predicate Remembered(s: State, scope: Scope)
    requires scope in s.installer
  {
    var current := CoreAt(s.core, scope);
    Recorded(s, scope) ||
    (s.installer[scope] in s.store.pending
     && s.store.pending[s.installer[scope]].value.target == current.revision
     && s.store.pending[s.installer[scope]].value.rules == current.rules)
  }

  // ---- The invariant ----

  ghost predicate CoreInv(cfg: Config, s: State) {
    && (forall scope :: scope in s.core && s.core[scope].revision > 0 ==> WasInstalled(s, scope, s.core[scope]))
    && (forall id :: id in s.timeline ==>
          s.timeline[id].revision == id.revision && 0 < id.revision <= CoreAt(s.core, id.scope).revision)
    && (forall scope :: scope in s.installer ==>
          s.installer[scope].scope == scope && scope in s.core && s.core[scope].revision > 0
          && s.core[scope].hash == cfg.hash(s.core[scope].rules))
  }

  ghost predicate HistoryIsTrue(s: State) {
    forall id :: id in s.store.history ==>
      RevisionOf(s.store.history[id].value) == id && IsTrue(s, s.store.history[id].value)
  }

  ghost predicate HeadsAreNamed(s: State) {
    forall scope :: scope in s.store.heads ==>
      s.store.heads[scope].version > 0 && s.store.heads[scope].value.scope == scope
      && InHistory(s, scope, s.store.heads[scope].value.revision, s.store.heads[scope].value.hash)
  }

  ghost predicate PendingIsFiled(s: State) {
    forall id :: id in s.store.pending ==>
      s.store.pending[id].value.ID() == id && s.store.pending[id].version > 0
      && s.store.pending[id].value.target == s.store.pending[id].value.expected + 1
  }

  ghost predicate StoreInv(s: State) { HistoryIsTrue(s) && HeadsAreNamed(s) && PendingIsFiled(s) }

  ghost predicate NothingForgotten(s: State) {
    && (forall m :: m in s.orphans ==> Covered(s, m))
    && (forall scope :: scope in s.installer ==> Remembered(s, scope))
  }

  ghost predicate HasPending(s: State, p: Pending, version: nat) {
    p.ID() in s.store.pending && s.store.pending[p.ID()] == Versioned(p, version)
  }

  /** Finishing revision r is about the pending record id. */
  ghost predicate Finishes(s: State, r: Revision, id: PendingID) {
    IsTrue(s, r) && r.scope == id.scope
    && id in s.store.pending && s.store.pending[id].value.target == r.revision
  }

  ghost predicate CallInv(s: State, call: Call) {
    match call
    case ApplyPut(p) => p.target == p.expected + 1
    case ApplyGet(p) => p.target == p.expected + 1
    case ApplySend(p, version) => HasPending(s, p, version)
    case ApplyWait(p, version) => HasPending(s, p, version)
    case ApplyForget(p, version, _) =>
      HasPending(s, p, version)
      && (p.scope in s.installer && s.installer[p.scope] == p.ID() ==> Recorded(s, p.scope))
    case FinishGet(r, id, _) => Finishes(s, r, id)
    case FinishForget(r, id, _) => Finishes(s, r, id) && InHistory(s, r.scope, r.revision, r.hash)
    case FinishHead(r, id, _) => Finishes(s, r, id)
    case FinishCommit(r, id, _, plan) =>
      Finishes(s, r, id) && !plan.Clash? && (plan.Leave? ==> HeadAtLeast(s, r.scope, r.revision))
      && (plan.Write? ==> HeadBelow(s, r.scope, r.revision, plan.expected))
    case HeadGet(scope, revision, hash) => InHistory(s, scope, revision, hash)
    case HeadPut(scope, revision, hash, expected) =>
      InHistory(s, scope, revision, hash) && HeadBelow(s, scope, revision, expected)
    case CurrentRead(_, _) => true
    case CurrentGet(scope, current, _) => WasInstalled(s, scope, current)
    case CurrentPut(scope, current, _) => WasInstalled(s, scope, current)
    case Returned(scope, revision) => RevisionID(scope, revision) in s.store.history && HeadAtLeast(s, scope, revision)
    case ReturnedUnruled => true
    case Failed(_) => true
  }

  ghost predicate DistinctIDs(queue: seq<Entry>) {
    forall i, j :: 0 <= i < j < |queue| ==> queue[i].id != queue[j].id
  }

  /** What recovery listed is still there, exactly as listed. */
  ghost predicate QueueInv(s: State, queue: seq<Entry>) {
    DistinctIDs(queue)
    && forall i :: 0 <= i < |queue| ==>
         queue[i].id in s.store.pending && s.store.pending[queue[i].id] == queue[i].record
  }

  ghost predicate WorkInv(s: State, work: Recovery) {
    match work
    case RecoverList => true
    case RecoverRead(queue) => QueueInv(s, queue)
    case RecoverWait(queue) => queue != [] && QueueInv(s, queue)
    case RecoverDrop(queue, current) =>
      queue != [] && QueueInv(s, queue) && WasInstalled(s, queue[0].id.scope, current)
      && var p := queue[0].record.value;
         current.revision >= p.target && (current.revision != p.target || !SameRules(current.rules, p.rules))
    case RecoverFinish(queue, call) =>
      queue != [] && DistinctIDs(queue) && QueueInv(s, queue[1..]) && CallInv(s, call)
      && (IsFinishing(call) || IsOver(call))
      && (RecordOf(call).Some? ==> RecordOf(call) == Some(queue[0].id))
  }

  /** A record has one owner at most. */
  ghost predicate OneOwner(calls: map<nat, Call>) {
    forall c, d :: c in calls && d in calls && c != d && IsOwner(calls[c]) && IsOwner(calls[d]) ==>
      RecordOf(calls[c]) != RecordOf(calls[d])
  }

  /** Old requests under the ID of a record at work are stale. */
  ghost predicate OwnersAreSafe(s: State, calls: map<nat, Call>) {
    forall c, m :: c in calls && m in s.orphans && IsOwner(calls[c]) && RecordOf(calls[c]) == Some(m.id) ==> Stale(s, m)
  }

  /** A call that will find its own intent on record may take it over. */
  ghost predicate MayTakeOver(s: State, calls: map<nat, Call>) {
    forall c :: c in calls && IsTentative(calls[c]) && IsOnRecord(s, calls[c].p) ==> Unowned(s, calls, calls[c].p.ID())
  }

  ghost predicate IntentsDiffer(calls: map<nat, Call>) {
    forall c, d :: c in calls && d in calls && c != d && IsTentative(calls[c]) && IsTentative(calls[d]) ==>
      calls[c].p != calls[d].p
  }

  ghost predicate Exclusive(s: State, calls: map<nat, Call>) {
    OneOwner(calls) && OwnersAreSafe(s, calls) && MayTakeOver(s, calls) && IntentsDiffer(calls)
  }

  ghost predicate ProcessInv(s: State) {
    match s.process
    case Down => true
    case Recovering(work) => WorkInv(s, work)
    case Serving(calls) => Exclusive(s, calls) && forall c :: c in calls ==> CallInv(s, calls[c])
  }

  /** The invariant, part by part. */
  datatype Part = InCore | InStore | NotForgotten | InProcess

  ghost predicate Holds(cfg: Config, s: State, part: Part) {
    match part
    case InCore => CoreInv(cfg, s)
    case InStore => StoreInv(s)
    case NotForgotten => NothingForgotten(s)
    case InProcess => ProcessInv(s)
  }

  /** Everything but where the process stands. */
  ghost predicate Sound(cfg: Config, s: State) { forall part :: part != InProcess ==> Holds(cfg, s, part) }

  ghost predicate Inv(cfg: Config, s: State) { forall part :: Holds(cfg, s, part) }

  lemma SoundParts(cfg: Config, s: State)
    requires Sound(cfg, s)
    ensures CoreInv(cfg, s) && StoreInv(s) && NothingForgotten(s)
  {
    assert Holds(cfg, s, InCore) && Holds(cfg, s, InStore) && Holds(cfg, s, NotForgotten);
  }

  lemma Parts(cfg: Config, s: State)
    requires Inv(cfg, s)
    ensures Sound(cfg, s) && ProcessInv(s)
  {
    assert Holds(cfg, s, InProcess);
  }

  lemma SoundWhole(cfg: Config, s: State)
    requires CoreInv(cfg, s) && StoreInv(s) && NothingForgotten(s)
    ensures Sound(cfg, s)
  {}

  lemma Whole(cfg: Config, s: State)
    requires Sound(cfg, s) && ProcessInv(s)
    ensures Inv(cfg, s)
  {
    assert Holds(cfg, s, InProcess);
  }

  // ---- How a state may change under a call that is not moving ----

  ghost predicate TimelineGrows(s: State, t: State) {
    forall id :: id in s.timeline ==> id in t.timeline && t.timeline[id] == s.timeline[id]
  }

  ghost predicate CoreRises(s: State, t: State) {
    forall scope :: CoreAt(s.core, scope).revision <= CoreAt(t.core, scope).revision
  }

  ghost predicate HistoryGrows(s: State, t: State) {
    forall id :: id in s.store.history ==> id in t.store.history && t.store.history[id] == s.store.history[id]
  }

  /** A head's version changes whenever its value does. */
  ghost predicate HeadsRise(s: State, t: State) {
    forall scope :: scope in s.store.heads ==>
      scope in t.store.heads
      && t.store.heads[scope].value.revision >= s.store.heads[scope].value.revision
      && t.store.heads[scope].version >= s.store.heads[scope].version
      && (t.store.heads[scope].version == s.store.heads[scope].version ==>
          t.store.heads[scope] == s.store.heads[scope])
  }

  datatype Aspect = OfTimeline | OfCore | OfHistory | OfHeads

  ghost predicate GrowsIn(s: State, t: State, aspect: Aspect) {
    match aspect
    case OfTimeline => TimelineGrows(s, t)
    case OfCore => CoreRises(s, t)
    case OfHistory => HistoryGrows(s, t)
    case OfHeads => HeadsRise(s, t)
  }

  /** History and timeline only grow; Core's revisions and the heads only rise. */
  ghost predicate Grows(s: State, t: State) { forall aspect :: GrowsIn(s, t, aspect) }

  lemma GrowsEverywhere(s: State, t: State)
    requires Grows(s, t)
    ensures TimelineGrows(s, t) && CoreRises(s, t) && HistoryGrows(s, t) && HeadsRise(s, t)
  {
    assert GrowsIn(s, t, OfTimeline) && GrowsIn(s, t, OfCore) && GrowsIn(s, t, OfHistory) && GrowsIn(s, t, OfHeads);
  }

  lemma GrowsTransitive(a: State, b: State, c: State)
    requires Grows(a, b) && Grows(b, c)
    ensures Grows(a, c)
  {
    GrowsEverywhere(a, b);
    GrowsEverywhere(b, c);
  }

  /** Nobody touched the pending record, nor made Core install on its behalf. */
  ghost predicate Untouched(s: State, t: State, id: PendingID) {
    && (id in s.store.pending <==> id in t.store.pending)
    && (id in s.store.pending ==> t.store.pending[id] == s.store.pending[id])
    && (id.scope in t.installer && t.installer[id.scope] == id ==>
          id.scope in s.installer && s.installer[id.scope] == id
          && CoreAt(t.core, id.scope) == CoreAt(s.core, id.scope))
  }

  lemma CallStands(s: State, t: State, call: Call)
    requires CallInv(s, call) && Grows(s, t)
    requires IsOwner(call) ==> Untouched(s, t, RecordOf(call).value)
    ensures CallInv(t, call)
  {
    GrowsEverywhere(s, t);
  }

  /** t is s after a step that concerns only the pending record id (or none). */
  ghost predicate KeepsOthers(s: State, t: State, id: Option<PendingID>) {
    && Grows(s, t) && t.orphans == s.orphans
    && (forall other :: id != Some(other) ==> Untouched(s, t, other))
  }

  // ---- Core handles a request ----

  lemma HandleGrows(cfg: Config, s: State, m: Message)
    requires CoreInv(cfg, s)
    ensures Grows(s, Handle(cfg, s, m))
  {}

  lemma HandleInstalls(cfg: Config, s: State, m: Message, t: State)
    requires CoreInv(cfg, s) && t == Handle(cfg, s, m)
    ensures forall scope :: scope in t.core && t.core[scope].revision > 0 ==> WasInstalled(t, scope, t.core[scope])
  {
    HandleGrows(cfg, s, m);
    GrowsEverywhere(s, t);
    forall scope | scope in t.core && t.core[scope].revision > 0
      ensures WasInstalled(t, scope, t.core[scope])
    {
      if t == s || scope != m.id.scope {
        InstalledStands(s, t, scope, s.core[scope]);
      }
    }
  }

  lemma HandleKeepsCore(cfg: Config, s: State, m: Message)
    requires CoreInv(cfg, s)
    ensures CoreInv(cfg, Handle(cfg, s, m))
  {
    HandleInstalls(cfg, s, m, Handle(cfg, s, m));
    HandleTimeline(cfg, s, m);
  }

  lemma HandleTimeline(cfg: Config, s: State, m: Message)
    requires CoreInv(cfg, s)
    ensures var t := Handle(cfg, s, m);
            forall id :: id in t.timeline ==>
              t.timeline[id].revision == id.revision && 0 < id.revision <= CoreAt(t.core, id.scope).revision
  {
    var t := Handle(cfg, s, m);
    HandleGrows(cfg, s, m);
    forall id | id in t.timeline
      ensures t.timeline[id].revision == id.revision && 0 < id.revision <= CoreAt(t.core, id.scope).revision
    {
      if id in s.timeline {
        assert t.timeline[id] == s.timeline[id] || t != s;
      }
    }
  }

  /** Installed rule sets stay installed. */
  lemma InstalledStands(s: State, t: State, scope: Scope, rules: RuleSet)
    requires WasInstalled(s, scope, rules) && TimelineGrows(s, t) && CoreRises(s, t)
    ensures WasInstalled(t, scope, rules)
  {}

  lemma HistoryStands(s: State, t: State)
    requires HistoryIsTrue(s) && t.store.history == s.store.history && TimelineGrows(s, t) && CoreRises(s, t)
    ensures HistoryIsTrue(t)
  {
    forall id | id in t.store.history
      ensures IsTrue(t, t.store.history[id].value)
    {
      var r := s.store.history[id].value;
      InstalledStands(s, t, r.scope, RuleSet(r.revision, r.hash, r.rules));
    }
  }

  lemma HandleKeepsStore(cfg: Config, s: State, m: Message)
    requires CoreInv(cfg, s) && StoreInv(s)
    ensures StoreInv(Handle(cfg, s, m))
  {
    var t := Handle(cfg, s, m);
    HandleGrows(cfg, s, m);
    GrowsEverywhere(s, t);
    HistoryStands(s, t);
    assert t.store == s.store;
  }

  lemma HandleForgetsNothing(cfg: Config, s: State, m: Message)
    requires CoreInv(cfg, s) && NothingForgotten(s) && Covered(s, m)
    ensures NothingForgotten(Handle(cfg, s, m))
  {
    var t := Handle(cfg, s, m);
    forall scope | scope in t.installer
      ensures Remembered(t, scope)
    {
      if t == s || scope != m.id.scope {
        assert Remembered(s, scope);
      } else {
        assert Backed(s, m);
      }
    }
    forall o | o in t.orphans ensures Covered(t, o) { assert Covered(s, o); }
  }

  lemma HandleKeepsOthers(cfg: Config, s: State, m: Message)
    requires CoreInv(cfg, s)
    ensures KeepsOthers(s, Handle(cfg, s, m), Some(m.id))
  {
    HandleGrows(cfg, s, m);
    forall other | Some(m.id) != Some(other)
      ensures Untouched(s, Handle(cfg, s, m), other)
    {}
  }

  lemma HandleIsSound(cfg: Config, s: State, m: Message)
    requires Sound(cfg, s) && Covered(s, m)
    ensures Sound(cfg, Handle(cfg, s, m)) && KeepsOthers(s, Handle(cfg, s, m), Some(m.id))
    ensures Handle(cfg, s, m).store == s.store && Handle(cfg, s, m).process == s.process
  {
    SoundParts(cfg, s);
    HandleKeepsOthers(cfg, s, m);
    HandleKeepsCore(cfg, s, m);
    HandleKeepsStore(cfg, s, m);
    HandleForgetsNothing(cfg, s, m);
  }

  /** Core accepts a request only with rules it has installed at the requested revision. */
  lemma AcceptedWasInstalled(cfg: Config, s: State, m: Message)
    requires CoreInv(cfg, s) && m.target == m.expected + 1
    ensures var reply := CoreReply(cfg, CoreAt(s.core, m.id.scope), m);
            reply.Accepted? ==>
              reply.current.revision == m.target && WasInstalled(Handle(cfg, s, m), m.id.scope, reply.current)
  {}

  /** A refused request is not the one behind Core's current rules, unless those are recorded. */
  lemma RefusedIsForgettable(cfg: Config, s: State, m: Message)
    requires Sound(cfg, s) && Backed(s, m) && CoreReply(cfg, CoreAt(s.core, m.id.scope), m).Refused?
    ensures Handle(cfg, s, m) == s
    ensures m.id.scope in s.installer && s.installer[m.id.scope] == m.id ==> Recorded(s, m.id.scope)
  {
    SoundParts(cfg, s);
    if m.id.scope in s.installer && s.installer[m.id.scope] == m.id {
      assert Remembered(s, m.id.scope);
    }
  }

  // ---- Store operations ----

  /** Forgetting this pending record loses nothing. */
  ghost predicate Forgettable(s: State, id: PendingID) {
    && (forall m :: m in s.orphans && m.id == id ==> m.target <= CoreAt(s.core, id.scope).revision)
    && (id.scope in s.installer && s.installer[id.scope] == id ==> Recorded(s, id.scope))
  }

  ghost predicate SamePending(s: State, t: State, id: PendingID) {
    && (id in s.store.pending <==> id in t.store.pending)
    && (id in s.store.pending ==> t.store.pending[id] == s.store.pending[id])
  }

  lemma CoreElsewhere(cfg: Config, s: State, t: State)
    requires CoreInv(cfg, s) && t.core == s.core && t.timeline == s.timeline && t.installer == s.installer
    ensures CoreInv(cfg, t)
  {}

  lemma StoreChangeForgetsNothing(cfg: Config, s: State, t: State, id: Option<PendingID>)
    requires CoreInv(cfg, s) && NothingForgotten(s) && t == s.(store := t.store) && HistoryGrows(s, t)
    requires forall other :: id != Some(other) ==> SamePending(s, t, other)
    requires id.Some? ==> SamePending(s, t, id.value) || Forgettable(s, id.value)
    ensures NothingForgotten(t)
  {
    forall scope | scope in t.installer
      ensures Remembered(t, scope)
    {
      assert Remembered(s, scope);
      assert SamePending(s, t, s.installer[scope]) || id == Some(s.installer[scope]);
    }
    forall m | m in t.orphans
      ensures Covered(t, m)
    {
      assert Covered(s, m);
      assert SamePending(s, t, m.id) || id == Some(m.id);
    }
  }

  /** Only the store changed; what may have left the pending collection was forgettable. */
  lemma StoreChangeIsSound(cfg: Config, s: State, t: State, id: Option<PendingID>)
    requires Sound(cfg, s) && t == s.(store := t.store) && StoreInv(t) && Grows(s, t)
    requires forall other :: id != Some(other) ==> SamePending(s, t, other)
    requires id.Some? ==> SamePending(s, t, id.value) || Forgettable(s, id.value)
    ensures Sound(cfg, t) && KeepsOthers(s, t, id)
  {
    assert NothingForgotten(t) by {
      SoundParts(cfg, s);
      GrowsEverywhere(s, t);
      StoreChangeForgetsNothing(cfg, s, t, id);
    }
    assert CoreInv(cfg, t) by {
      SoundParts(cfg, s);
      CoreElsewhere(cfg, s, t);
    }
    SoundWhole(cfg, t);
    forall other | id != Some(other)
      ensures Untouched(s, t, other)
    {
      assert SamePending(s, t, other);
    }
  }

  lemma AddRevisionIsSound(cfg: Config, s: State, r: Revision)
    requires Sound(cfg, s) && IsTrue(s, r) && AddRevision(s.store, r).Ok?
    ensures var t := s.(store := AddRevision(s.store, r).value);
            Sound(cfg, t) && KeepsOthers(s, t, None) && InHistory(t, r.scope, r.revision, r.hash)
  {
    SoundParts(cfg, s);
    var t := s.(store := AddRevision(s.store, r).value);
    AddRevisionKeepsStore(s, r);
    StoreChangeIsSound(cfg, s, t, None);
  }

  lemma AddRevisionKeepsStore(s: State, r: Revision)
    requires StoreInv(s) && IsTrue(s, r) && AddRevision(s.store, r).Ok?
    ensures var t := s.(store := AddRevision(s.store, r).value);
            StoreInv(t) && Grows(s, t) && forall other :: SamePending(s, t, other)
  {
    var t := s.(store := AddRevision(s.store, r).value);
    forall id | id in t.store.history
      ensures RevisionOf(t.store.history[id].value) == id && IsTrue(t, t.store.history[id].value)
    {
      if id != RevisionOf(r) {
        assert IsTrue(s, s.store.history[id].value);
      }
    }
    assert Grows(s, t);
    forall scope | scope in t.store.heads
      ensures InHistory(t, scope, t.store.heads[scope].value.revision, t.store.heads[scope].value.hash)
    {
      assert InHistory(s, scope, s.store.heads[scope].value.revision, s.store.heads[scope].value.hash);
    }
  }

  lemma DropPendingKeepsStore(s: State, id: PendingID, version: nat)
    requires StoreInv(s) && DropPending(s.store, id, version).Ok?
    ensures var t := s.(store := DropPending(s.store, id, version).value);
            StoreInv(t) && Grows(s, t) && forall other :: other != id ==> SamePending(s, t, other)
  {
    var t := s.(store := DropPending(s.store, id, version).value);
    HistoryStands(s, t);
  }

  lemma DropPendingIsSound(cfg: Config, s: State, id: PendingID, version: nat)
    requires Sound(cfg, s) && Forgettable(s, id) && DropPending(s.store, id, version).Ok?
    ensures var t := s.(store := DropPending(s.store, id, version).value);
            Sound(cfg, t) && KeepsOthers(s, t, Some(id))
  {
    var t := s.(store := DropPending(s.store, id, version).value);
    assert StoreInv(s) by { SoundParts(cfg, s); }
    DropPendingKeepsStore(s, id, version);
    StoreChangeIsSound(cfg, s, t, Some(id));
  }

  lemma PutHeadIsSound(cfg: Config, s: State, head: Head, expected: nat)
    requires Sound(cfg, s) && InHistory(s, head.scope, head.revision, head.hash)
    requires HeadBelow(s, head.scope, head.revision, expected) && PutHead(s.store, head, expected).Ok?
    ensures var t := s.(store := PutHead(s.store, head, expected).value);
            Sound(cfg, t) && KeepsOthers(s, t, None) && HeadAtLeast(t, head.scope, head.revision)
  {
    SoundParts(cfg, s);
    var t := s.(store := PutHead(s.store, head, expected).value);
    PutHeadKeepsStore(s, head, expected);
    StoreChangeIsSound(cfg, s, t, None);
  }

  lemma PutHeadKeepsHeads(s: State, head: Head, expected: nat, t: State)
    requires HeadsAreNamed(s) && InHistory(s, head.scope, head.revision, head.hash)
    requires PutHead(s.store, head, expected).Ok? && t == s.(store := PutHead(s.store, head, expected).value)
    ensures HeadsAreNamed(t)
  {
    forall scope | scope in t.store.heads
      ensures InHistory(t, scope, t.store.heads[scope].value.revision, t.store.heads[scope].value.hash)
    {
      if scope != head.scope {
        assert InHistory(s, scope, s.store.heads[scope].value.revision, s.store.heads[scope].value.hash);
      }
    }
  }

  lemma PutHeadRises(s: State, head: Head, expected: nat, t: State)
    requires HeadBelow(s, head.scope, head.revision, expected)
    requires PutHead(s.store, head, expected).Ok? && t == s.(store := PutHead(s.store, head, expected).value)
    ensures HeadsRise(s, t)
  {}

  lemma PutHeadKeepsStore(s: State, head: Head, expected: nat)
    requires StoreInv(s) && InHistory(s, head.scope, head.revision, head.hash)
    requires HeadBelow(s, head.scope, head.revision, expected) && PutHead(s.store, head, expected).Ok?
    ensures var t := s.(store := PutHead(s.store, head, expected).value);
            StoreInv(t) && Grows(s, t) && forall other :: SamePending(s, t, other)
  {
    var t := s.(store := PutHead(s.store, head, expected).value);
    PutHeadKeepsHeads(s, head, expected, t);
    PutHeadRises(s, head, expected, t);
    HistoryStands(s, t);
  }

  lemma RecordedIsForgettable(cfg: Config, s: State, r: Revision, id: PendingID)
    requires Sound(cfg, s) && Finishes(s, r, id) && RevisionOf(r) in s.store.history && id in s.store.pending
    ensures Forgettable(s, id)
  {
    SoundParts(cfg, s);
    forall m | m in s.orphans && m.id == id
      ensures m.target <= CoreAt(s.core, id.scope).revision
    {
      assert Covered(s, m);
    }
    if id.scope in s.installer && s.installer[id.scope] == id {
      assert Remembered(s, id.scope);
    }
  }

  /** A head never disagrees with a recorded revision about its hash. */
  lemma NoClash(s: State, scope: Scope, revision: nat, hash: string)
    requires StoreInv(s)
    requires InHistory(s, scope, revision, hash) || RevisionID(scope, revision) !in s.store.history
    ensures !PlanHead(s.store, scope, revision, hash).Clash?
  {}

  /** The finishing transaction has the effect of its three parts done in turn. */
  lemma TransactionInTurn(store: Store, r: Revision, id: PendingID, version: nat, writeHead: bool, headVersion: nat)
    requires FinishTransaction(store, r, id, version, writeHead, headVersion).Ok?
    ensures AddRevision(store, r).Ok?
    ensures var a := AddRevision(store, r).value;
            DropPending(a, id, version).Ok? &&
            var b := DropPending(a, id, version).value;
            var head := Head(r.scope, r.revision, r.hash);
            FinishTransaction(store, r, id, version, writeHead, headVersion) ==
            if writeHead then PutHead(b, head, headVersion) else Ok(b)
  {}

  lemma FinishCommitIsSound(cfg: Config, s: State, call: Call)
    requires Sound(cfg, s) && call.FinishCommit? && CallInv(s, call)
    ensures var (store, next) := FinishStep(s.store, call);
            var t := s.(store := store);
            Sound(cfg, t) && KeepsOthers(s, t, RecordOf(call)) && CallInv(t, next) && IsOver(next)
  {
    var (store, next) := FinishStep(s.store, call);
    if next.Returned? {
      CommitInTurn(cfg, s, call.r, call.id, call.version, call.plan, s.(store := store));
    } else {
      assert s.(store := store) == s;
    }
  }

  /** The transaction as its three parts, one after the other. */
  lemma CommitInTurn(cfg: Config, s: State, r: Revision, id: PendingID, version: nat, plan: HeadPlan, t: State)
    requires Sound(cfg, s) && CallInv(s, FinishCommit(r, id, version, plan))
    requires var done := FinishTransaction(s.store, r, id, version, plan.Write?, if plan.Write? then plan.expected
                                           else 0);
             done.Ok? && t == s.(store := done.value)
    requires !plan.Clash?
    ensures Sound(cfg, t) && KeepsOthers(s, t, Some(id)) && RevisionOf(r) in t.store.history
    ensures HeadAtLeast(t, r.scope, r.revision)
  {
    TransactionInTurn(s.store, r, id, version, plan.Write?, if plan.Write? then plan.expected else 0);
    AddRevisionIsSound(cfg, s, r);
    var a := s.(store := AddRevision(s.store, r).value);
    RecordedIsForgettable(cfg, a, r, id);
    DropPendingIsSound(cfg, a, id, version);
    var b := a.(store := DropPending(a.store, id, version).value);
    KeepsCompose(s, a, b, id);
    assert InHistory(b, r.scope, r.revision, r.hash);
    if plan.Write? {
      FinishHeadPut(cfg, s, b, r, id, plan.expected);
    }
  }

  lemma FinishHeadPut(cfg: Config, s: State, b: State, r: Revision, id: PendingID, expected: nat)
    requires Sound(cfg, b) && KeepsOthers(s, b, Some(id)) && InHistory(b, r.scope, r.revision, r.hash)
    requires HeadBelow(s, r.scope, r.revision, expected)
    requires PutHead(b.store, Head(r.scope, r.revision, r.hash), expected).Ok?
    ensures var c := b.(store := PutHead(b.store, Head(r.scope, r.revision, r.hash), expected).value);
            Sound(cfg, c) && KeepsOthers(s, c, Some(id)) && InHistory(c, r.scope, r.revision, r.hash)
            && HeadAtLeast(c, r.scope, r.revision)
  {
    GrowsEverywhere(s, b);
    PutHeadIsSound(cfg, b, Head(r.scope, r.revision, r.hash), expected);
    KeepsCompose(s, b, b.(store := PutHead(b.store, Head(r.scope, r.revision, r.hash), expected).value), id);
  }

  lemma KeepsCompose(a: State, b: State, c: State, id: PendingID)
    requires KeepsOthers(a, b, Some(id)) || KeepsOthers(a, b, None)
    requires KeepsOthers(b, c, Some(id)) || KeepsOthers(b, c, None)
    ensures KeepsOthers(a, c, Some(id))
  {
    GrowsTransitive(a, b, c);
    forall other | Some(id) != Some(other)
      ensures Untouched(a, c, other)
    {
      assert Untouched(a, b, other) && Untouched(b, c, other);
    }
  }

  lemma FinishForgetIsSound(cfg: Config, s: State, call: Call)
    requires Sound(cfg, s) && call.FinishForget? && CallInv(s, call)
    ensures var (store, next) := FinishStep(s.store, call);
            var t := s.(store := store);
            Sound(cfg, t) && KeepsOthers(s, t, RecordOf(call)) && CallInv(t, next)
  {
    if DropPending(s.store, call.id, call.version).Ok? {
      RecordedIsForgettable(cfg, s, call.r, call.id);
      DropPendingIsSound(cfg, s, call.id, call.version);
    } else {
      assert s.(store := s.store) == s;
    }
  }

  lemma HeadPutIsSound(cfg: Config, s: State, call: Call)
    requires Sound(cfg, s) && call.HeadPut? && CallInv(s, call)
    ensures var (store, next) := FinishStep(s.store, call);
            var t := s.(store := store);
            Sound(cfg, t) && KeepsOthers(s, t, None) && CallInv(t, next)
  {
    var (store, next) := FinishStep(s.store, call);
    if next.Returned? {
      PutHeadIsSound(cfg, s, Head(call.scope, call.revision, call.hash), call.expected);
    } else {
      assert s.(store := s.store) == s;
    }
  }

  /** The finishing stages go forward, and stay with the record they are about. */
  lemma FinishGoesOn(store: Store, call: Call)
    requires IsFinishing(call)
    ensures var next := FinishStep(store, call).1;
            (RecordOf(next).Some? ==> RecordOf(next) == RecordOf(call)) && (IsFinishing(next) || IsOver(next))
  {}

  lemma FinishIsSound(cfg: Config, s: State, call: Call)
    requires Sound(cfg, s) && IsFinishing(call) && CallInv(s, call)
    ensures var (store, next) := FinishStep(s.store, call);
            var t := s.(store := store);
            Sound(cfg, t) && KeepsOthers(s, t, RecordOf(call)) && CallInv(t, next)
            && (RecordOf(next).Some? ==> RecordOf(next) == RecordOf(call)) && (IsFinishing(next) || IsOver(next))
  {
    FinishGoesOn(s.store, call);
    if call.FinishForget? {
      FinishForgetIsSound(cfg, s, call);
    } else if call.FinishCommit? {
      FinishCommitIsSound(cfg, s, call);
    } else if call.HeadPut? {
      HeadPutIsSound(cfg, s, call);
    } else {
      assert StoreInv(s) by { SoundParts(cfg, s); }
      FinishReadIsSound(s, call);
    }
  }

  lemma SelfKeeps(s: State, id: Option<PendingID>)
    ensures KeepsOthers(s, s, id)
  {}

  lemma FinishGetIsSound(s: State, call: Call)
    requires CallInv(s, call) && call.FinishGet?
    ensures var (store, next) := FinishStep(s.store, call);
            store == s.store && CallInv(s, next) && (RecordOf(next).Some? ==> RecordOf(next) == RecordOf(call))
            && (IsFinishing(next) || IsOver(next))
  {}

  /** What a plan for the head says about the head. */
  lemma PlanIsSound(s: State, scope: Scope, revision: nat, hash: string)
    requires HeadsAreNamed(s)
    requires InHistory(s, scope, revision, hash) || RevisionID(scope, revision) !in s.store.history
    ensures var plan := PlanHead(s.store, scope, revision, hash);
            && !plan.Clash? && (plan.Leave? ==> HeadAtLeast(s, scope, revision))
            && (plan.Write? ==> HeadBelow(s, scope, revision, plan.expected))
  {}

  lemma FinishHeadIsSound(s: State, call: Call)
    requires StoreInv(s) && CallInv(s, call) && call.FinishHead?
    ensures var (store, next) := FinishStep(s.store, call);
            store == s.store && CallInv(s, next) && (RecordOf(next).Some? ==> RecordOf(next) == RecordOf(call))
            && (IsFinishing(next) || IsOver(next))
  {
    if !PlanHead(s.store, call.r.scope, call.r.revision, call.r.hash).Clash? {
      PlanHolds(s, call.r);
    }
  }

  lemma PlanHolds(s: State, r: Revision)
    requires StoreInv(s) && IsTrue(s, r)
    ensures var plan := PlanHead(s.store, r.scope, r.revision, r.hash);
            && (plan.Leave? ==> HeadAtLeast(s, r.scope, r.revision))
            && (plan.Write? ==> HeadBelow(s, r.scope, r.revision, plan.expected))
  {}

  lemma HeadGetIsSound(s: State, call: Call)
    requires HeadsAreNamed(s) && CallInv(s, call) && call.HeadGet?
    ensures var (store, next) := FinishStep(s.store, call);
            store == s.store && CallInv(s, next) && RecordOf(next).None? && (IsFinishing(next) || IsOver(next))
  {
    PlanIsSound(s, call.scope, call.revision, call.hash);
  }

  lemma FinishReadIsSound(s: State, call: Call)
    requires StoreInv(s) && CallInv(s, call)
    requires call.FinishGet? || call.FinishHead? || call.HeadGet?
    ensures var (store, next) := FinishStep(s.store, call);
            s.(store := store) == s && CallInv(s, next) && KeepsOthers(s, s, RecordOf(call))
            && (RecordOf(next).Some? ==> RecordOf(next) == RecordOf(call)) && (IsFinishing(next) || IsOver(next))
  {
    SelfKeeps(s, RecordOf(call));
    if call.FinishGet? {
      FinishGetIsSound(s, call);
    } else if call.FinishHead? {
      FinishHeadIsSound(s, call);
    } else {
      HeadGetIsSound(s, call);
    }
  }

  // ---- One step of one call ----

  lemma ApplyPutKeepsStore(s: State, p: Pending)
    requires StoreInv(s) && p.target == p.expected + 1 && AddPending(s.store, p).Ok?
    ensures var t := s.(store := AddPending(s.store, p).value); StoreInv(t) && Grows(s, t) && HasPending(t, p, 1)
  {
    HistoryStands(s, s.(store := AddPending(s.store, p).value));
  }

  lemma ApplyPutForgetsNothing(s: State, p: Pending)
    requires NothingForgotten(s) && AddPending(s.store, p).Ok?
    ensures NothingForgotten(s.(store := AddPending(s.store, p).value))
  {
    var t := s.(store := AddPending(s.store, p).value);
    forall scope | scope in t.installer ensures Remembered(t, scope) { assert Remembered(s, scope); }
    forall m | m in t.orphans ensures Covered(t, m) { assert Covered(s, m); }
  }

  lemma ApplyPutIsSound(cfg: Config, s: State, p: Pending)
    requires Sound(cfg, s) && p.target == p.expected + 1 && AddPending(s.store, p).Ok?
    ensures var t := s.(store := AddPending(s.store, p).value);
            Sound(cfg, t) && KeepsOthers(s, t, Some(p.ID())) && HasPending(t, p, 1)
  {
    var t := s.(store := AddPending(s.store, p).value);
    SoundParts(cfg, s);
    ApplyPutKeepsStore(s, p);
    ApplyPutForgetsNothing(s, p);
    CoreElsewhere(cfg, s, t);
    SoundWhole(cfg, t);
    forall other | other != p.ID() ensures Untouched(s, t, other) {}
  }

  lemma ApplyWaitIsSound(cfg: Config, s: State, call: Call, now: nat)
    requires Sound(cfg, s) && call.ApplyWait? && CallInv(s, call)
    ensures var (t, next) := CallStep(cfg, s, call, now);
            Sound(cfg, t) && KeepsOthers(s, t, RecordOf(call)) && CallInv(t, next)
            && (RecordOf(next).Some? ==> RecordOf(next) == RecordOf(call)) && t.process == s.process
  {
    SoundParts(cfg, s);
    var m := call.p.Ask();
    assert Backed(s, m) && Covered(s, m);
    HandleIsSound(cfg, s, m);
    AcceptedWasInstalled(cfg, s, m);
    if CoreReply(cfg, CoreAt(s.core, call.p.scope), m).Refused? {
      RefusedIsForgettable(cfg, s, m);
    }
  }

  lemma CurrentPutIsSound(cfg: Config, s: State, call: Call, now: nat)
    requires Sound(cfg, s) && call.CurrentPut? && CallInv(s, call)
    ensures var (t, next) := CallStep(cfg, s, call, now);
            Sound(cfg, t) && KeepsOthers(s, t, None) && CallInv(t, next) && RecordOf(next).None?
            && t.process == s.process
  {
    SoundParts(cfg, s);
    var r := Revision(call.scope, call.current.revision, call.current.hash, call.current.rules, "", call.requestID,
                      FromRecovery, now);
    if AddRevision(s.store, r).Ok? {
      AddRevisionIsSound(cfg, s, r);
    } else {
      assert IsTrue(s, s.store.history[RevisionOf(r)].value);
    }
  }

  lemma FinishingStep(cfg: Config, s: State, call: Call, now: nat)
    requires IsFinishing(call)
    ensures CallStep(cfg, s, call, now) == (s.(store := FinishStep(s.store, call).0), FinishStep(s.store, call).1)
  {}

  lemma ApplyPutStep(cfg: Config, s: State, call: Call, now: nat)
    requires Sound(cfg, s) && CallInv(s, call) && call.ApplyPut?
    ensures var (t, next) := CallStep(cfg, s, call, now);
            Sound(cfg, t) && KeepsOthers(s, t, RecordOf(call)) && CallInv(t, next)
            && RecordOf(next) == RecordOf(call) && t.process == s.process
  {
    if AddPending(s.store, call.p).Ok? {
      ApplyPutIsSound(cfg, s, call.p);
    } else {
      SelfKeeps(s, RecordOf(call));
    }
  }

  lemma ApplyForgetStep(cfg: Config, s: State, call: Call, now: nat)
    requires Sound(cfg, s) && CallInv(s, call) && call.ApplyForget?
    requires IsOwner(call) ==> forall m :: m in s.orphans && RecordOf(call) == Some(m.id) ==> Stale(s, m)
    ensures var (t, next) := CallStep(cfg, s, call, now);
            Sound(cfg, t) && KeepsOthers(s, t, RecordOf(call)) && next.Failed? && t.process == s.process
  {
    if DropPending(s.store, call.p.ID(), call.version).Ok? {
      DropPendingIsSound(cfg, s, call.p.ID(), call.version);
    } else {
      SelfKeeps(s, RecordOf(call));
    }
  }

  lemma CallStepIsSound(cfg: Config, s: State, call: Call, now: nat)
    requires Sound(cfg, s) && CallInv(s, call) && !IsOver(call)
    requires IsOwner(call) ==> forall m :: m in s.orphans && RecordOf(call) == Some(m.id) ==> Stale(s, m)
    ensures var (t, next) := CallStep(cfg, s, call, now);
            Sound(cfg, t) && KeepsOthers(s, t, RecordOf(call)) && CallInv(t, next)
            && (RecordOf(next).Some? ==> RecordOf(next) == RecordOf(call)) && t.process == s.process
  {
    if IsFinishing(call) {
      FinishingStep(cfg, s, call, now);
      FinishIsSound(cfg, s, call);
    } else if call.ApplyPut? {
      ApplyPutStep(cfg, s, call, now);
    } else if call.ApplyWait? {
      ApplyWaitIsSound(cfg, s, call, now);
    } else if call.ApplyForget? {
      ApplyForgetStep(cfg, s, call, now);
    } else if call.CurrentPut? {
      CurrentPutIsSound(cfg, s, call, now);
    } else if call.CurrentRead? {
      assert CoreInv(cfg, s) by { SoundParts(cfg, s); }
      CurrentReadIsSound(cfg, s, call, now);
      SelfKeeps(s, RecordOf(call));
    } else {
      QuietStep(cfg, s, call, now);
      SelfKeeps(s, RecordOf(call));
    }
  }

  lemma CurrentReadIsSound(cfg: Config, s: State, call: Call, now: nat)
    requires CoreInv(cfg, s) && call.CurrentRead?
    ensures var (t, next) := CallStep(cfg, s, call, now);
            t == s && CallInv(s, next) && RecordOf(next).None?
  {}

  lemma QuietStep(cfg: Config, s: State, call: Call, now: nat)
    requires CallInv(s, call) && (call.ApplyGet? || call.ApplySend? || call.CurrentGet?)
    ensures var (t, next) := CallStep(cfg, s, call, now);
            t == s && CallInv(s, next) && (RecordOf(next).Some? ==> RecordOf(next) == RecordOf(call))
  {}

  // ---- Every event ----

  ghost predicate SameFacts(s: State, t: State) {
    t.core == s.core && t.store == s.store && t.timeline == s.timeline && t.installer == s.installer
  }

  /** What is known about a call depends only on Core, the store and what was installed. */
  lemma CallElsewhere(s: State, t: State, call: Call)
    requires CallInv(s, call) && SameFacts(s, t)
    ensures CallInv(t, call)
  {
    CallStands(s, t, call);
  }

  lemma StoreElsewhere(s: State, t: State)
    requires StoreInv(s) && SameFacts(s, t)
    ensures StoreInv(t)
  {
    HistoryStands(s, t);
  }

  lemma ForgottenElsewhere(s: State, t: State)
    requires NothingForgotten(s) && SameFacts(s, t)
    requires forall m :: m in t.orphans ==> m in s.orphans || Covered(s, m)
    ensures NothingForgotten(t)
  {
    forall scope | scope in t.installer ensures Remembered(t, scope) { assert Remembered(s, scope); }
    forall m | m in t.orphans ensures Covered(t, m) { assert Covered(s, m); }
  }

  /** Soundness does not depend on the process. */
  lemma SoundElsewhere(cfg: Config, s: State, t: State)
    requires Sound(cfg, s) && SameFacts(s, t)
    requires forall m :: m in t.orphans ==> m in s.orphans || Covered(s, m)
    ensures Sound(cfg, t) && Grows(s, t)
  {
    SoundParts(cfg, s);
    assert CoreInv(cfg, t);
    StoreElsewhere(s, t);
    ForgottenElsewhere(s, t);
  }

  /** When one call moves, the others keep what they know. */
  lemma OthersStand(s: State, t: State, calls: map<nat, Call>, c: nat)
    requires Exclusive(s, calls) && c in calls && KeepsOthers(s, t, RecordOf(calls[c]))
    requires IsTentative(calls[c]) && IsRecorded(s, calls[c]) ==> t == s
    requires forall d :: d in calls ==> CallInv(s, calls[d])
    ensures forall d :: d in calls && d != c ==> CallInv(t, calls[d])
  {
    forall d | d in calls && d != c
      ensures CallInv(t, calls[d])
    {
      if IsOwner(calls[d]) {
        OwnersAreRecorded(s, calls[d]);
        assert t == s || RecordOf(calls[d]) != RecordOf(calls[c]);
        assert Untouched(s, t, RecordOf(calls[d]).value);
      }
      CallStands(s, t, calls[d]);
    }
  }

  ghost predicate IsRecorded(s: State, call: Call) { RecordOf(call).Some? && RecordOf(call).value in s.store.pending }

  lemma OwnersAreRecorded(s: State, call: Call)
    requires CallInv(s, call) && IsOwner(call)
    ensures IsRecorded(s, call)
  {}

  /** A second Apply under an ID that is on record leaves everything alone. */
  lemma TentativeLeaves(cfg: Config, s: State, call: Call, now: nat)
    requires IsTentative(call) && IsRecorded(s, call)
    ensures CallStep(cfg, s, call, now).0 == s
  {}

  /** What becomes of a call: a tentative call takes a record over that is its own or new; an
      owner keeps its record as it is, or drops it. */
  lemma Becomes(cfg: Config, s: State, call: Call, now: nat)
    requires CallInv(s, call) && !IsOver(call)
    ensures var (t, next) := CallStep(cfg, s, call, now);
            && (IsTentative(next) ==> IsTentative(call) && next.p == call.p && t == s)
            && (IsTentative(call) && IsOwner(next) ==>
                  RecordOf(next) == Some(call.p.ID()) && IsOnRecord(t, call.p) && t.core == s.core
                  && (IsOnRecord(s, call.p) || !IsRecorded(s, call)))
            && (IsOwner(call) && IsRecorded(t, call) ==>
                  IsRecorded(s, call) && t.store.pending[RecordOf(call).value] == s.store.pending[RecordOf(call).value])
  {
    if IsFinishing(call) {
      FinishRecord(s.store, call);
    }
  }

  lemma FinishRecord(store: Store, call: Call)
    requires IsFinishing(call)
    ensures var after := FinishStep(store, call).0;
            forall id :: id in after.pending ==> id in store.pending && after.pending[id] == store.pending[id]
  {}

  /** An ID that is not on record is not at work, and its old requests are stale. */
  lemma UnrecordedIsUnowned(s: State, calls: map<nat, Call>, id: PendingID)
    requires NothingForgotten(s) && id !in s.store.pending
    requires forall d :: d in calls ==> CallInv(s, calls[d])
    ensures Unowned(s, calls, id)
  {
    forall c | c in calls && IsOwner(calls[c])
      ensures RecordOf(calls[c]) != Some(id)
    {
      OwnersAreRecorded(s, calls[c]);
    }
    forall m | m in s.orphans && m.id == id
      ensures Stale(s, m)
    {
      assert Covered(s, m);
    }
  }

  /** A tentative call takes its record over. */
  lemma TakeOverExclusive(s: State, t: State, calls: map<nat, Call>, c: nat, next: Call)
    requires Exclusive(s, calls) && c in calls && IsTentative(calls[c]) && IsOwner(next)
    requires Unowned(s, calls, calls[c].p.ID()) && RecordOf(next) == Some(calls[c].p.ID())
    requires t.orphans == s.orphans && t.core == s.core && IsOnRecord(t, calls[c].p)
    requires forall other :: other != calls[c].p.ID() ==> SamePending(s, t, other)
    ensures Exclusive(t, calls[c := next])
  {
    var after, id := calls[c := next], calls[c].p.ID();
    forall d | d in after && IsTentative(after[d]) && IsOnRecord(t, after[d].p)
      ensures Unowned(t, after, after[d].p.ID())
    {
      assert after[d].p != calls[c].p;
      assert SamePending(s, t, after[d].p.ID());
      assert Unowned(s, calls, after[d].p.ID());
    }
  }

  /** Any other step of a call. */
  lemma StepExclusive(s: State, t: State, calls: map<nat, Call>, c: nat, next: Call)
    requires Exclusive(s, calls) && c in calls && t.orphans == s.orphans && CoreRises(s, t)
    requires IsOwner(next) ==> IsOwner(calls[c]) && RecordOf(next) == RecordOf(calls[c])
    requires IsTentative(next) ==> IsTentative(calls[c]) && next.p == calls[c].p
    requires forall other :: RecordOf(calls[c]) != Some(other) ==> SamePending(s, t, other)
    requires IsTentative(calls[c]) ==> t.store == s.store
    requires IsOwner(calls[c]) && IsRecorded(t, calls[c]) ==> SamePending(s, t, RecordOf(calls[c]).value)
    ensures Exclusive(t, calls[c := next])
  {
    var after := calls[c := next];
    forall d | d in after && IsTentative(after[d]) && IsOnRecord(t, after[d].p)
      ensures Unowned(t, after, after[d].p.ID())
    {
      assert SamePending(s, t, after[d].p.ID());
      assert Unowned(s, calls, after[d].p.ID());
    }
  }

  lemma StillExclusive(cfg: Config, s: State, calls: map<nat, Call>, c: nat, now: nat, t: State, next: Call)
    requires Exclusive(s, calls) && c in calls && !IsOver(calls[c]) && NothingForgotten(s)
    requires forall d :: d in calls ==> CallInv(s, calls[d])
    requires (t, next) == CallStep(cfg, s, calls[c], now) && KeepsOthers(s, t, RecordOf(calls[c]))
    requires RecordOf(next).Some? ==> RecordOf(next) == RecordOf(calls[c])
    ensures Exclusive(t, calls[c := next])
  {
    Becomes(cfg, s, calls[c], now);
    GrowsEverywhere(s, t);
    forall other | RecordOf(calls[c]) != Some(other)
      ensures SamePending(s, t, other)
    {
      assert Untouched(s, t, other);
    }
    if IsTentative(calls[c]) && IsOwner(next) {
      if !IsOnRecord(s, calls[c].p) {
        UnrecordedIsUnowned(s, calls, calls[c].p.ID());
      }
      TakeOverExclusive(s, t, calls, c, next);
    } else {
      StepExclusive(s, t, calls, c, next);
    }
  }

  lemma ExclusiveElsewhere(s: State, t: State, calls: map<nat, Call>)
    requires Exclusive(s, calls) && CoreRises(s, t) && t.store == s.store
    requires forall m :: m in t.orphans ==> m in s.orphans
    ensures Exclusive(t, calls)
  {
    forall d | d in calls && IsTentative(calls[d]) && IsOnRecord(t, calls[d].p)
      ensures Unowned(t, calls, calls[d].p.ID())
    {
      assert Unowned(s, calls, calls[d].p.ID());
    }
  }

  lemma ServingElsewhere(s: State, t: State, calls: map<nat, Call>)
    requires SameFacts(s, t) && t.process == Serving(calls) && Exclusive(t, calls)
    requires forall d :: d in calls ==> CallInv(s, calls[d])
    ensures ProcessInv(t)
  {
    forall d | d in calls
      ensures CallInv(t, calls[d])
    {
      CallElsewhere(s, t, calls[d]);
    }
  }

  lemma AdvanceKeeps(cfg: Config, s: State, c: nat, now: nat)
    requires Inv(cfg, s) && Enabled(s, Advance(c, now))
    ensures Inv(cfg, Do(cfg, s, Advance(c, now))) && Grows(s, Do(cfg, s, Advance(c, now)))
  {
    Parts(cfg, s);
    var calls := s.process.calls;
    var (after, next) := CallStep(cfg, s, calls[c], now);
    CallStepIsSound(cfg, s, calls[c], now);
    var t := Do(cfg, s, Advance(c, now));
    if IsTentative(calls[c]) && IsRecorded(s, calls[c]) {
      TentativeLeaves(cfg, s, calls[c], now);
    }
    OthersStand(s, after, calls, c);
    assert NothingForgotten(s) by { SoundParts(cfg, s); }
    StillExclusive(cfg, s, calls, c, now, after, next);
    GrowsEverywhere(after, after);
    ExclusiveElsewhere(after, t, calls[c := next]);
    ServingElsewhere(after, t, calls[c := next]);
    SoundElsewhere(cfg, after, t);
    GrowsTransitive(s, after, t);
    Whole(cfg, t);
  }

  lemma NewcomerIsExclusive(s: State, calls: map<nat, Call>, c: nat, call: Call)
    requires Exclusive(s, calls) && c !in calls && !IsOwner(call)
    requires IsTentative(call) ==> NotInFlight(s, calls, call.p)
    ensures Exclusive(s, calls[c := call])
  {
    var after := calls[c := call];
    forall d | d in after && IsTentative(after[d]) && IsOnRecord(s, after[d].p)
      ensures Unowned(s, after, after[d].p.ID())
    {
      assert Unowned(s, calls, after[d].p.ID());
    }
  }

  lemma JoinKeeps(cfg: Config, s: State, c: nat, call: Call)
    requires Inv(cfg, s) && s.process.Serving? && c !in s.process.calls && CallInv(s, call)
    requires !IsOwner(call) && (IsTentative(call) ==> NotInFlight(s, s.process.calls, call.p))
    ensures var t := s.(process := Serving(s.process.calls[c := call])); Inv(cfg, t) && Grows(s, t)
  {
    Parts(cfg, s);
    var t := s.(process := Serving(s.process.calls[c := call]));
    NewcomerIsExclusive(s, s.process.calls, c, call);
    SoundElsewhere(cfg, s, t);
    GrowsEverywhere(s, t);
    ExclusiveElsewhere(s, t, t.process.calls);
    ServingElsewhere(s, t, t.process.calls);
    Whole(cfg, t);
  }

  /** The request that a vanishing call leaves behind is covered by its record. */
  lemma StrandedIsCovered(s: State, call: Call, m: Message)
    requires StoreInv(s) && CallInv(s, call) && m in Stranded(call)
    ensures Covered(s, m) && RecordOf(call) == Some(m.id)
  {}

  lemma OthersStay(s: State, t: State, calls: map<nat, Call>, c: nat)
    requires forall d :: d in calls ==> CallInv(s, calls[d])
    requires SameFacts(s, t)
    ensures forall d :: d in calls - {c} ==> CallInv(t, (calls - {c})[d])
  {
    forall d | d in calls - {c}
      ensures CallInv(t, (calls - {c})[d])
    {
      CallElsewhere(s, t, calls[d]);
    }
  }

  lemma AbortExclusive(s: State, t: State, calls: map<nat, Call>, c: nat)
    requires Exclusive(s, calls) && c in calls && SameFacts(s, t)
    requires t.orphans == s.orphans + Stranded(calls[c])
    ensures Exclusive(t, calls - {c})
  {
    var left := calls - {c};
    forall d | d in left && IsTentative(left[d]) && IsOnRecord(t, left[d].p)
      ensures Unowned(t, left, left[d].p.ID())
    {
      assert Unowned(s, calls, left[d].p.ID());
    }
  }

  lemma AbortKeeps(cfg: Config, s: State, c: nat)
    requires Inv(cfg, s) && Enabled(s, Abort(c))
    ensures Inv(cfg, Do(cfg, s, Abort(c))) && Grows(s, Do(cfg, s, Abort(c)))
  {
    Parts(cfg, s);
    var t := Do(cfg, s, Abort(c));
    var calls := s.process.calls;
    forall m | m in Stranded(calls[c])
      ensures Covered(s, m) && RecordOf(calls[c]) == Some(m.id)
    {
      SoundParts(cfg, s);
      StrandedIsCovered(s, calls[c], m);
    }
    SoundElsewhere(cfg, s, t);
    OthersStay(s, t, calls, c);
    AbortExclusive(s, t, calls, c);
    Whole(cfg, t);
  }

  lemma CrashOrphansAreCovered(cfg: Config, s: State, m: Message)
    requires Inv(cfg, s) && m in CrashOrphans(s)
    ensures Covered(s, m)
  {
    Parts(cfg, s);
    SoundParts(cfg, s);
    if s.process.Serving? {
      var calls := s.process.calls;
      var c :| c in calls && calls[c].ApplyWait? && calls[c].p.Ask() == m;
      assert CallInv(s, calls[c]);
    }
  }

  lemma CrashKeeps(cfg: Config, s: State)
    requires Inv(cfg, s)
    ensures Inv(cfg, Do(cfg, s, Crash)) && Grows(s, Do(cfg, s, Crash))
  {
    var t := Do(cfg, s, Crash);
    forall m | m in CrashOrphans(s)
      ensures Covered(s, m)
    {
      CrashOrphansAreCovered(cfg, s, m);
    }
    Parts(cfg, s);
    SoundElsewhere(cfg, s, t);
    Whole(cfg, t);
  }

  /** The finishing stages depend on the store and on what Core installed, not on who installed it. */
  lemma FinishStands(s: State, t: State, call: Call)
    requires CallInv(s, call) && Grows(s, t) && (IsFinishing(call) || IsOver(call))
    requires RecordOf(call).Some? ==> SamePending(s, t, RecordOf(call).value)
    ensures CallInv(t, call)
  {
    GrowsEverywhere(s, t);
  }

  lemma WorkStands(s: State, t: State, work: Recovery)
    requires WorkInv(s, work) && Grows(s, t) && t.store == s.store
    ensures WorkInv(t, work)
  {
    if work.RecoverFinish? {
      FinishStands(s, t, work.call);
    } else if work.RecoverDrop? {
      GrowsEverywhere(s, t);
    }
  }

  lemma HandleOrphanKeeps(cfg: Config, s: State, m: Message)
    requires Inv(cfg, s) && m in s.orphans
    ensures var t := Handle(cfg, s, m).(orphans := s.orphans - multiset{m}); Inv(cfg, t) && Grows(s, t)
  {
    Parts(cfg, s);
    assert Covered(s, m) by { SoundParts(cfg, s); }
    HandleIsSound(cfg, s, m);
    var u := Handle(cfg, s, m);
    var t := u.(orphans := s.orphans - multiset{m});
    SoundElsewhere(cfg, u, t);
    GrowsTransitive(s, u, t);
    OrphanKeepsProcess(s, u, t, m);
    Whole(cfg, t);
  }

  lemma LoseOrphanKeeps(cfg: Config, s: State, m: Message)
    requires Inv(cfg, s) && m in s.orphans
    ensures var t := s.(orphans := s.orphans - multiset{m}); Inv(cfg, t) && Grows(s, t)
  {
    Parts(cfg, s);
    var t := s.(orphans := s.orphans - multiset{m});
    SoundElsewhere(cfg, s, t);
    assert KeepsOthers(s, s, Some(m.id));
    OrphanKeepsProcess(s, s, t, m);
    Whole(cfg, t);
  }

  lemma OrphanKeepsProcess(s: State, u: State, t: State, m: Message)
    requires ProcessInv(s) && m in s.orphans && KeepsOthers(s, u, Some(m.id)) && u.store == s.store
    requires u.process == s.process && (Stale(s, m) ==> u == s)
    requires SameFacts(u, t) && t.process == s.process && Grows(s, t) && t.orphans == s.orphans - multiset{m}
    ensures ProcessInv(t)
  {
    match s.process
    case Down =>
    case Recovering(work) => WorkStands(s, t, work);
    case Serving(calls) =>
      GrowsEverywhere(s, t);
      ExclusiveElsewhere(s, t, calls);
      forall d | d in calls
        ensures CallInv(t, calls[d])
      {
        if IsOwner(calls[d]) {
          assert RecordOf(calls[d]) == Some(m.id) ==> Stale(s, m);
          assert Untouched(s, u, RecordOf(calls[d]).value);
        }
        CallStands(s, u, calls[d]);
        CallElsewhere(u, t, calls[d]);
      }
  }

  lemma JudgeIsSound(cfg: Config, s: State, queue: seq<Entry>, current: RuleSet)
    requires Sound(cfg, s) && queue != [] && QueueInv(s, queue)
    requires current.revision > 0 ==> WasInstalled(s, queue[0].id.scope, current)
    ensures var next := Judge(queue, current); next.Some? ==> WorkInv(s, next.value)
  {
    SoundParts(cfg, s);
    var next := Judge(queue, current);
    if next.Some? && next.value.RecoverFinish? {
      assert QueueInv(s, queue[1..]);
    }
  }

  lemma DropIsSound(cfg: Config, s: State, queue: seq<Entry>, current: RuleSet)
    requires Sound(cfg, s) && WorkInv(s, RecoverDrop(queue, current))
    ensures Forgettable(s, queue[0].id)
  {
    SoundParts(cfg, s);
    var id, p := queue[0].id, queue[0].record.value;
    forall m | m in s.orphans && m.id == id
      ensures m.target <= CoreAt(s.core, id.scope).revision
    {
      assert Covered(s, m);
    }
    if id.scope in s.installer && s.installer[id.scope] == id {
      assert Remembered(s, id.scope);
      assert WasInstalled(s, id.scope, s.core[id.scope]);
    }
  }

  lemma TailStands(s: State, u: State, queue: seq<Entry>)
    requires queue != [] && DistinctIDs(queue) && QueueInv(s, queue[1..])
    requires KeepsOthers(s, u, Some(queue[0].id)) || KeepsOthers(s, u, None)
    ensures QueueInv(u, queue[1..])
  {
    forall i | 0 <= i < |queue[1..]|
      ensures queue[1..][i].id in u.store.pending && u.store.pending[queue[1..][i].id] == queue[1..][i].record
    {
      assert queue[1..][i] == queue[i + 1] && queue[i + 1].id != queue[0].id;
      assert Untouched(s, u, queue[i + 1].id);
    }
  }

  lemma RecoverFinishKeeps(cfg: Config, s: State, queue: seq<Entry>, call: Call, listing: seq<Entry>)
    requires Sound(cfg, s) && WorkInv(s, RecoverFinish(queue, call)) && IsFinishing(call)
    ensures var t := RecoveryStep(cfg, s, RecoverFinish(queue, call), listing);
            Inv(cfg, t) && Grows(s, t)
  {
    var (store, next) := FinishStep(s.store, call);
    FinishIsSound(cfg, s, call);
    var u := s.(store := store);
    TailStands(s, u, queue);
    var t := RecoveryStep(cfg, s, RecoverFinish(queue, call), listing);
    assert t == u.(process := Recovering(RecoverFinish(queue, next)));
    FinishedKeeps(cfg, u, queue, next, t);
    GrowsTransitive(s, u, t);
  }

  lemma FinishedKeeps(cfg: Config, u: State, queue: seq<Entry>, next: Call, t: State)
    requires Sound(cfg, u) && CallInv(u, next) && (IsFinishing(next) || IsOver(next))
    requires t == u.(process := Recovering(RecoverFinish(queue, next)))
    requires WorkInv(u, RecoverFinish(queue, next))
    ensures Inv(cfg, t) && Grows(u, t)
  {
    SoundElsewhere(cfg, u, t);
    FinishStands(u, t, next);
  }

  lemma RecoverKeeps(cfg: Config, s: State, work: Recovery, listing: seq<Entry>)
    requires Sound(cfg, s) && WorkInv(s, work) && (work.RecoverList? ==> IsListing(listing, s.store.pending))
    ensures var t := RecoveryStep(cfg, s, work, listing); Inv(cfg, t) && Grows(s, t)
  {
    match work
    case RecoverList =>
      ListingIsDistinct(listing, s.store.pending);
      ListingParts(listing, s.store.pending);
      SoundElsewhere(cfg, s, s.(process := Recovering(RecoverRead(listing))));
    case RecoverRead(queue) => RecoverReadKeeps(cfg, s, queue, listing);
    case RecoverWait(queue) => RecoverWaitKeeps(cfg, s, queue, listing);
    case RecoverDrop(queue, current) => RecoverDropKeeps(cfg, s, queue, current, listing);
    case RecoverFinish(queue, call) => RecoverFinishOrLeave(cfg, s, queue, call, listing);
  }

  lemma RecoverFinishOrLeave(cfg: Config, s: State, queue: seq<Entry>, call: Call, listing: seq<Entry>)
    requires Sound(cfg, s) && WorkInv(s, RecoverFinish(queue, call))
    ensures var t := RecoveryStep(cfg, s, RecoverFinish(queue, call), listing); Inv(cfg, t) && Grows(s, t)
  {
    if IsFinishing(call) {
      RecoverFinishKeeps(cfg, s, queue, call, listing);
    } else {
      SoundElsewhere(cfg, s, s.(process := Down));
      SoundElsewhere(cfg, s, s.(process := Recovering(RecoverRead(queue[1..]))));
    }
  }

  lemma RecoverReadKeeps(cfg: Config, s: State, queue: seq<Entry>, listing: seq<Entry>)
    requires Sound(cfg, s) && WorkInv(s, RecoverRead(queue))
    ensures var t := RecoveryStep(cfg, s, RecoverRead(queue), listing); Inv(cfg, t) && Grows(s, t)
  {
    var t := RecoveryStep(cfg, s, RecoverRead(queue), listing);
    RecoverReadFrame(cfg, s, queue, listing, t);
    SoundElsewhere(cfg, s, t);
    RecoverReadKeepsProcess(cfg, s, queue, t);
  }

  lemma RecoverReadFrame(cfg: Config, s: State, queue: seq<Entry>, listing: seq<Entry>, t: State)
    requires t == RecoveryStep(cfg, s, RecoverRead(queue), listing)
    ensures t == s.(process := t.process) && t == RecoveryStep(cfg, s, RecoverRead(queue), [])
  {}

  lemma FrontIsFiled(cfg: Config, s: State, queue: seq<Entry>)
    requires Sound(cfg, s) && QueueInv(s, queue) && queue != []
    ensures queue[0].record.value.ID() == queue[0].id && Backed(s, queue[0].record.value.Ask())
    ensures Covered(s, queue[0].record.value.Ask())
    ensures var current := CoreAt(s.core, queue[0].id.scope);
            current.revision > 0 ==> WasInstalled(s, queue[0].id.scope, current)
  {
    SoundParts(cfg, s);
  }

  lemma WorkElsewhere(s: State, t: State, work: Recovery)
    requires WorkInv(s, work) && SameFacts(s, t)
    ensures WorkInv(t, work)
  {
    assert Grows(s, t);
    WorkStands(s, t, work);
  }

  lemma ReadProcess(cfg: Config, s: State, queue: seq<Entry>, t: State)
    requires queue != [] && queue[0].record.value.ID() == queue[0].id
    requires t == RecoveryStep(cfg, s, RecoverRead(queue), [])
    ensures var current := CoreAt(s.core, queue[0].id.scope);
            t == s.(process := if current.revision == queue[0].record.value.expected then Recovering(RecoverWait(queue))
                               else Proceed(Judge(queue, current)))
  {}

  lemma RecoverReadKeepsProcess(cfg: Config, s: State, queue: seq<Entry>, t: State)
    requires Sound(cfg, s) && WorkInv(s, RecoverRead(queue)) && t == RecoveryStep(cfg, s, RecoverRead(queue), [])
    ensures ProcessInv(t)
  {
    if queue != [] {
      FrontIsFiled(cfg, s, queue);
      JudgeIsSound(cfg, s, queue, CoreAt(s.core, queue[0].id.scope));
      ReadProcess(cfg, s, queue, t);
      if t.process.Recovering? {
        WorkElsewhere(s, t, t.process.work);
      }
    }
  }

  lemma RecoverWaitKeeps(cfg: Config, s: State, queue: seq<Entry>, listing: seq<Entry>)
    requires Sound(cfg, s) && WorkInv(s, RecoverWait(queue))
    ensures var t := RecoveryStep(cfg, s, RecoverWait(queue), listing); Inv(cfg, t) && Grows(s, t)
  {
    SoundParts(cfg, s);
    var t := RecoveryStep(cfg, s, RecoverWait(queue), listing);
    var m := queue[0].record.value.Ask();
    assert s.store.pending[queue[0].id].value.ID() == queue[0].id;
    assert Backed(s, m) && Covered(s, m);
    HandleIsSound(cfg, s, m);
    AcceptedWasInstalled(cfg, s, m);
    var u := Handle(cfg, s, m);
    SoundElsewhere(cfg, u, t);
    GrowsTransitive(s, u, t);
    var reply := CoreReply(cfg, CoreAt(s.core, m.id.scope), m);
    if reply.Accepted? {
      JudgeIsSound(cfg, u, queue, reply.current);
      if t.process.Recovering? {
        WorkStands(u, t, t.process.work);
      }
    }
  }

  lemma RecoverDropKeeps(cfg: Config, s: State, queue: seq<Entry>, current: RuleSet, listing: seq<Entry>)
    requires Sound(cfg, s) && WorkInv(s, RecoverDrop(queue, current))
    ensures var t := RecoveryStep(cfg, s, RecoverDrop(queue, current), listing); Inv(cfg, t) && Grows(s, t)
  {
    var t := RecoveryStep(cfg, s, RecoverDrop(queue, current), listing);
    DropIsSound(cfg, s, queue, current);
    DropPendingIsSound(cfg, s, queue[0].id, queue[0].record.version);
    var u := s.(store := DropPending(s.store, queue[0].id, queue[0].record.version).value);
    SoundElsewhere(cfg, u, t);
    GrowsTransitive(s, u, t);
    forall i | 0 <= i < |queue[1..]|
      ensures queue[1..][i].id in t.store.pending && t.store.pending[queue[1..][i].id] == queue[1..][i].record
    {
      assert queue[1..][i] == queue[i + 1] && queue[i + 1].id != queue[0].id;
    }
  }

  lemma ListingIsDistinct(queue: seq<Entry>, pending: map<PendingID, Versioned<Pending>>)
    requires IsListing(queue, pending)
    ensures DistinctIDs(queue)
  {
    ListingParts(queue, pending);
    forall i, j | 0 <= i < j < |queue|
      ensures queue[i].id != queue[j].id
    {
      Text.LessIrreflexive(PendingKey(queue[i].id.scope, queue[i].id.requestID));
    }
  }

  lemma RestartKeeps(cfg: Config, s: State)
    requires Inv(cfg, s) && s.process.Down?
    ensures var t := s.(process := Recovering(RecoverList)); Inv(cfg, t) && Grows(s, t)
  {
    var t := s.(process := Recovering(RecoverList));
    Parts(cfg, s);
    SoundElsewhere(cfg, s, t);
    Whole(cfg, t);
  }

  lemma EventKeeps(cfg: Config, s: State, e: Event)
    requires Inv(cfg, s) && Enabled(s, e)
    ensures Inv(cfg, Do(cfg, s, e)) && Grows(s, Do(cfg, s, e))
  {
    match e
    case BeginApply(c, p) => JoinKeeps(cfg, s, c, ApplyPut(p));
    case BeginCurrent(c, scope, requestID) => JoinKeeps(cfg, s, c, CurrentRead(scope, requestID));
    case Advance(c, now) => AdvanceKeeps(cfg, s, c, now);
    case Abort(c) => AbortKeeps(cfg, s, c);
    case Crash => CrashKeeps(cfg, s);
    case Restart => RestartKeeps(cfg, s);
    case Recover(queue, _) =>
      Parts(cfg, s);
      RecoverKeeps(cfg, s, s.process.work, queue);
    case HandleOrphan(m) => HandleOrphanKeeps(cfg, s, m);
    case LoseOrphan(m) => LoseOrphanKeeps(cfg, s, m);
  }

  // ---- Whole runs ----

  lemma InitHolds(cfg: Config, s: State)
    requires Init(s)
    ensures Inv(cfg, s)
  {}

  lemma {:induction false} RunKeeps(cfg: Config, s: State, events: seq<Event>)
    requires Inv(cfg, s) && IsRun(cfg, s, events)
    ensures Inv(cfg, After(cfg, s, events)) && Grows(s, After(cfg, s, events))
    decreases |events|
  {
    if events != [] {
      EventKeeps(cfg, s, events[0]);
      RunKeeps(cfg, Do(cfg, s, events[0]), events[1..]);
      GrowsTransitive(s, Do(cfg, s, events[0]), After(cfg, s, events));
    }
  }

  datatype Side = Start | Middle | End

  /** A run from an initial state to s. */
  ghost predicate Leads(cfg: Config, start: State, events: seq<Event>, s: State, side: Side) {
    match side
    case Start => Init(start)
    case Middle => IsRun(cfg, start, events)
    case End => IsRun(cfg, start, events) && After(cfg, start, events) == s
  }

  ghost predicate IsHistory(cfg: Config, start: State, events: seq<Event>, s: State) {
    forall side :: Leads(cfg, start, events, s, side)
  }

  ghost predicate Reachable(cfg: Config, s: State) {
    exists start, events :: IsHistory(cfg, start, events, s)
  }

  lemma HistoryOf(cfg: Config, s: State) returns (start: State, events: seq<Event>)
    requires Reachable(cfg, s)
    ensures Init(start) && IsRun(cfg, start, events) && After(cfg, start, events) == s
  {
    start, events :| IsHistory(cfg, start, events, s);
    assert Leads(cfg, start, events, s, Start) && Leads(cfg, start, events, s, End);
  }

  lemma RunReaches(cfg: Config, start: State, events: seq<Event>, s: State)
    requires Init(start) && IsRun(cfg, start, events) && After(cfg, start, events) == s
    ensures Reachable(cfg, s)
  {
    assert IsHistory(cfg, start, events, s);
  }

  lemma ReachableInv(cfg: Config, s: State)
    requires Reachable(cfg, s)
    ensures Inv(cfg, s)
  {
    var start, events := HistoryOf(cfg, s);
    InitHolds(cfg, start);
    RunKeeps(cfg, start, events);
  }

  /** No live rule set is forgotten: whatever rules Core now runs on behalf of a request are in
      the history, or a pending record with that target and those rules will bring them there. */
  lemma NoLiveRulesForgotten(cfg: Config, s: State, scope: Scope)
    requires Reachable(cfg, s) && scope in s.installer
    ensures var current := CoreAt(s.core, scope);
            RevisionID(scope, current.revision) in s.store.history
            || exists id :: id in s.store.pending && id.scope == scope
                            && s.store.pending[id].value.target == current.revision
                            && s.store.pending[id].value.rules == current.rules
  {
    ReachableInv(cfg, s);
    Parts(cfg, s);
    SoundParts(cfg, s);
    assert Remembered(s, scope);
  }

  lemma RecordIsTrue(cfg: Config, s: State, id: RevisionID)
    requires Inv(cfg, s) && id in s.store.history
    ensures RevisionOf(s.store.history[id].value) == id && IsTrue(s, s.store.history[id].value)
  {
    Parts(cfg, s);
    SoundParts(cfg, s);
  }

  /** The history is true: a recorded revision has exactly the hash and the rules that Core
      installed at it; and it is immutable: no further run changes or removes it. */
  lemma HistoryIsTrueAndImmutable(cfg: Config, s: State, id: RevisionID, events: seq<Event>)
    requires Reachable(cfg, s) && id in s.store.history && IsRun(cfg, s, events)
    ensures var r := s.store.history[id].value;
            id in s.timeline && s.timeline[id] == RuleSet(id.revision, r.hash, r.rules)
    ensures var t := After(cfg, s, events);
            id in t.store.history && t.store.history[id] == s.store.history[id]
            && id in t.timeline && t.timeline[id] == s.timeline[id]
  {
    ReachableInv(cfg, s);
    RecordIsTrue(cfg, s, id);
    RunKeeps(cfg, s, events);
    GrowsEverywhere(s, After(cfg, s, events));
  }

  lemma RunGrows(cfg: Config, s: State, events: seq<Event>)
    requires Reachable(cfg, s) && IsRun(cfg, s, events)
    ensures Grows(s, After(cfg, s, events))
  {
    ReachableInv(cfg, s);
    RunKeeps(cfg, s, events);
  }

  lemma HeadsNameHistory(cfg: Config, s: State, scope: Scope)
    requires Inv(cfg, s) && scope in s.store.heads
    ensures InHistory(s, scope, s.store.heads[scope].value.revision, s.store.heads[scope].value.hash)
  {
    Parts(cfg, s);
    SoundParts(cfg, s);
  }

  /** A head names a recorded revision with the same hash, and never moves back. */
  lemma HeadIsSafe(cfg: Config, s: State, scope: Scope, events: seq<Event>)
    requires Reachable(cfg, s) && scope in s.store.heads && IsRun(cfg, s, events)
    ensures var head := s.store.heads[scope].value;
            RevisionID(scope, head.revision) in s.store.history
            && s.store.history[RevisionID(scope, head.revision)].value.hash == head.hash
    ensures var t := After(cfg, s, events);
            scope in t.store.heads && t.store.heads[scope].value.revision >= s.store.heads[scope].value.revision
  {
    ReachableInv(cfg, s);
    HeadsNameHistory(cfg, s, scope);
    RunGrows(cfg, s, events);
    GrowsEverywhere(s, After(cfg, s, events));
  }

  lemma ReturnedFacts(cfg: Config, s: State, c: nat)
    requires Inv(cfg, s) && s.process.Serving? && c in s.process.calls && s.process.calls[c].Returned?
    ensures var call := s.process.calls[c];
            RevisionID(call.scope, call.revision) in s.store.history && HeadAtLeast(s, call.scope, call.revision)
  {
    Parts(cfg, s);
    SoundParts(cfg, s);
    assert CallInv(s, s.process.calls[c]);
  }

  /** When a call returns success its revision is in the history and the head is at or past it,
      at that moment and ever after. */
  lemma SuccessIsDurable(cfg: Config, s: State, c: nat, events: seq<Event>)
    requires Reachable(cfg, s) && s.process.Serving? && c in s.process.calls && s.process.calls[c].Returned?
    requires IsRun(cfg, s, events)
    ensures var call, t := s.process.calls[c], After(cfg, s, events);
            RevisionID(call.scope, call.revision) in t.store.history
            && call.scope in t.store.heads && t.store.heads[call.scope].value.revision >= call.revision
  {
    ReachableInv(cfg, s);
    ReturnedFacts(cfg, s, c);
    RunGrows(cfg, s, events);
    GrowsEverywhere(s, After(cfg, s, events));
  }

  /** A revision that Core installed and the one recorded under its number have the same hash. */
  lemma RecordedHash(s: State, scope: Scope, rules: RuleSet)
    requires StoreInv(s) && WasInstalled(s, scope, rules)
    ensures RevisionID(scope, rules.revision) in s.store.history ==> InHistory(s, scope, rules.revision, rules.hash)
  {
    if RevisionID(scope, rules.revision) in s.store.history {
      assert IsTrue(s, s.store.history[RevisionID(scope, rules.revision)].value);
    }
  }

  /** The mismatch errors that the code guards against never occur: no call ever finds a recorded
      revision, or a head, whose hash differs from the one it holds. */
  lemma HashesNeverDisagree(cfg: Config, s: State, c: nat)
    requires Reachable(cfg, s) && s.process.Serving? && c in s.process.calls
    ensures var call := s.process.calls[c];
            && (call.FinishGet? && RevisionOf(call.r) in s.store.history ==>
                  s.store.history[RevisionOf(call.r)].value.hash == call.r.hash)
            && (call.CurrentGet? && RevisionID(call.scope, call.current.revision) in s.store.history ==>
                  s.store.history[RevisionID(call.scope, call.current.revision)].value.hash == call.current.hash)
            && (call.FinishHead? ==> !PlanHead(s.store, call.r.scope, call.r.revision, call.r.hash).Clash?)
            && (call.HeadGet? ==> !PlanHead(s.store, call.scope, call.revision, call.hash).Clash?)
  {
    ReachableInv(cfg, s);
    StandingCall(cfg, s, c);
    CallHashes(s, s.process.calls[c]);
  }

  lemma StandingCall(cfg: Config, s: State, c: nat)
    requires Inv(cfg, s) && s.process.Serving? && c in s.process.calls
    ensures StoreInv(s) && CallInv(s, s.process.calls[c])
  {
    Parts(cfg, s);
    SoundParts(cfg, s);
  }

  lemma CallHashes(s: State, call: Call)
    requires StoreInv(s) && CallInv(s, call)
    ensures call.FinishGet? && RevisionOf(call.r) in s.store.history ==>
              s.store.history[RevisionOf(call.r)].value.hash == call.r.hash
    ensures call.CurrentGet? && RevisionID(call.scope, call.current.revision) in s.store.history ==>
              s.store.history[RevisionID(call.scope, call.current.revision)].value.hash == call.current.hash
    ensures call.FinishHead? ==> !PlanHead(s.store, call.r.scope, call.r.revision, call.r.hash).Clash?
    ensures call.HeadGet? ==> !PlanHead(s.store, call.scope, call.revision, call.hash).Clash?
  {
    match call
    case FinishGet(r, _, _) => RecordedHash(s, r.scope, RuleSet(r.revision, r.hash, r.rules));
    case FinishHead(r, _, _) =>
      RecordedHash(s, r.scope, RuleSet(r.revision, r.hash, r.rules));
      NoClash(s, r.scope, r.revision, r.hash);
    case HeadGet(scope, revision, hash) => NoClash(s, scope, revision, hash);
    case CurrentGet(scope, current, _) => RecordedHash(s, scope, current);
    case _ =>
  }
}
