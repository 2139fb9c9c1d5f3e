/** Who a recorded revision says it comes from: in every run each revision in the history names an
    Apply that was begun, or a reading of Core's rules, and carries what that one asked for. */
module SyncAuthors {
  import opened Results
  import opened Keys
  import opened Table
  import opened SyncProtocol
  import opened SyncSafety
  import opened SyncRules

  /** The revision is the one the intent asked for, under the name and the ID of whoever asked. What a
      call records has the hash of the intent's rules; what recovery records is a permutation of them. */
  ghost predicate IsFrom(cfg: Config, r: Revision, p: Pending) {
    && r.scope == p.scope && r.revision == p.target && r.actor == p.actor && r.requestID == p.requestID
    && match r.source
       case FromApply => r.hash == cfg.hash(p.rules)
       case FromRecovery => SameContents(r.rules, p.rules) && r.createdAt == p.createdAt
  }

  /** What reading Core's rules records about a revision nobody has recorded: no actor, and the ID of
      the reading request. */
  ghost predicate IsFound(r: Revision, readings: set<(Scope, string)>) {
    r.actor == "" && r.source.FromRecovery? && (r.scope, r.requestID) in readings
  }

  /** The intents and readings that may have led to a revision, and the revisions that were there before. */
  datatype Names = Names(intents: set<Pending>, readings: set<(Scope, string)>, before: set<RevisionID>)

  ghost predicate HasAuthor(cfg: Config, r: Revision, names: Names) {
    (exists p :: p in names.intents && IsFrom(cfg, r, p)) || IsFound(r, names.readings)
  }

  ghost predicate HasIntent(cfg: Config, r: Revision, names: Names) {
    exists p :: p in names.intents && IsFrom(cfg, r, p)
  }

  // ---- What is on its way to being recorded ----

  ghost predicate CallNamed(cfg: Config, call: Call, names: Names) {
    match call
    case ApplyPut(p) => p in names.intents
    case ApplyGet(p) => p in names.intents
    case ApplySend(p, _) => p in names.intents
    case ApplyWait(p, _) => p in names.intents
    case FinishGet(r, _, _) => HasIntent(cfg, r, names)
    case FinishHead(r, _, _) => HasIntent(cfg, r, names)
    case FinishCommit(r, _, _, _) => HasIntent(cfg, r, names)
    case CurrentRead(scope, requestID) => (scope, requestID) in names.readings
    case CurrentGet(scope, _, requestID) => (scope, requestID) in names.readings
    case CurrentPut(scope, _, requestID) => (scope, requestID) in names.readings
    case _ => true
  }

  ghost predicate QueueNamed(queue: seq<Entry>, names: Names) {
    forall i :: 0 <= i < |queue| ==> queue[i].record.value in names.intents
  }

  ghost predicate WorkNamed(cfg: Config, work: Recovery, names: Names) {
    match work
    case RecoverList => true
    case RecoverRead(queue) => QueueNamed(queue, names)
    case RecoverWait(queue) => QueueNamed(queue, names)
    case RecoverDrop(queue, _) => QueueNamed(queue, names)
    case RecoverFinish(queue, call) => QueueNamed(queue, names) && CallNamed(cfg, call, names)
  }

  ghost predicate ProcessNamed(cfg: Config, process: Process, names: Names) {
    match process
    case Down => true
    case Recovering(work) => WorkNamed(cfg, work, names)
    case Serving(calls) => forall c :: c in calls ==> CallNamed(cfg, calls[c], names)
  }

  ghost predicate PendingNamed(store: Store, names: Names) {
    forall id :: id in store.pending ==> store.pending[id].value in names.intents
  }

  ghost predicate HistoryNamed(cfg: Config, store: Store, names: Names) {
    forall id :: id in store.history && id !in names.before ==> HasAuthor(cfg, store.history[id].value, names)
  }

  ghost predicate StoreNamed(cfg: Config, store: Store, names: Names) {
    PendingNamed(store, names) && HistoryNamed(cfg, store, names)
  }

  ghost predicate Named(cfg: Config, s: State, names: Names) {
    StoreNamed(cfg, s.store, names) && ProcessNamed(cfg, s.process, names)
  }

  // ---- One step ----

  lemma AddedIsNamed(cfg: Config, store: Store, r: Revision, names: Names)
    requires StoreNamed(cfg, store, names) && HasAuthor(cfg, r, names)
    requires AddRevision(store, r).Ok?
    ensures StoreNamed(cfg, AddRevision(store, r).value, names)
  {}

  lemma CommitIsNamed(cfg: Config, store: Store, r: Revision, id: PendingID, version: nat, writeHead: bool,
                      headVersion: nat, names: Names)
    requires StoreNamed(cfg, store, names) && HasIntent(cfg, r, names)
    requires FinishTransaction(store, r, id, version, writeHead, headVersion).Ok?
    ensures StoreNamed(cfg, FinishTransaction(store, r, id, version, writeHead, headVersion).value, names)
  {}

  lemma FinishIsNamed(cfg: Config, store: Store, call: Call, names: Names)
    requires StoreNamed(cfg, store, names) && IsFinishing(call) && CallNamed(cfg, call, names)
    ensures var (after, next) := FinishStep(store, call);
            StoreNamed(cfg, after, names) && CallNamed(cfg, next, names)
  {
    if call.FinishCommit? {
      var writeHead := call.plan.Write?;
      var headVersion := if writeHead then call.plan.expected else 0;
      if FinishTransaction(store, call.r, call.id, call.version, writeHead, headVersion).Ok? {
        CommitIsNamed(cfg, store, call.r, call.id, call.version, writeHead, headVersion, names);
      }
    }
  }

  /** What Core accepts for an intent is recorded under the intent's name. */
  lemma AcceptedIsFrom(cfg: Config, current: RuleSet, p: Pending, now: nat)
    requires CoreReply(cfg, current, p.Ask()).Accepted?
    ensures var installed := CoreReply(cfg, current, p.Ask()).current;
            IsFrom(cfg, Revision(p.scope, installed.revision, installed.hash, installed.rules, p.actor, p.requestID,
                                 FromApply, now), p)
  {}

  lemma CallIsNamed(cfg: Config, s: State, call: Call, now: nat, names: Names)
    requires StoreNamed(cfg, s.store, names) && !IsOver(call) && CallNamed(cfg, call, names)
    ensures var (t, next) := CallStep(cfg, s, call, now);
            StoreNamed(cfg, t.store, names) && CallNamed(cfg, next, names)
  {
    if IsFinishing(call) {
      FinishIsNamed(cfg, s.store, call, names);
    } else if call.ApplyWait? {
      if CoreReply(cfg, CoreAt(s.core, call.p.scope), call.p.Ask()).Accepted? {
        AcceptedIsFrom(cfg, CoreAt(s.core, call.p.scope), call.p, now);
      }
    } else if call.CurrentPut? {
      var r := Revision(call.scope, call.current.revision, call.current.hash, call.current.rules, "", call.requestID,
                        FromRecovery, now);
      if AddRevision(s.store, r).Ok? {
        AddedIsNamed(cfg, s.store, r, names);
      }
    }
  }

  lemma JudgeIsNamed(cfg: Config, queue: seq<Entry>, current: RuleSet, names: Names)
    requires queue != [] && QueueNamed(queue, names)
    ensures var next := Judge(queue, current); next.Some? ==> WorkNamed(cfg, next.value, names)
  {
    var p, next := queue[0].record.value, Judge(queue, current);
    if next.Some? && next.value.RecoverFinish? {
      SameMeansPermuted(current.rules, p.rules);
      assert IsFrom(cfg, next.value.call.r, p);
    }
  }

  lemma WaitIsNamed(cfg: Config, s: State, queue: seq<Entry>, t: State, names: Names)
    requires StoreNamed(cfg, s.store, names) && QueueNamed(queue, names)
    requires t == RecoveryStep(cfg, s, RecoverWait(queue), [])
    ensures Named(cfg, t, names)
  {
    if queue != [] {
      var m := queue[0].record.value.Ask();
      var reply := CoreReply(cfg, CoreAt(s.core, m.id.scope), m);
      if reply.Accepted? {
        JudgeIsNamed(cfg, queue, reply.current, names);
      }
    }
  }

  lemma ReadIsNamed(cfg: Config, s: State, queue: seq<Entry>, t: State, names: Names)
    requires StoreNamed(cfg, s.store, names) && QueueNamed(queue, names)
    requires t == RecoveryStep(cfg, s, RecoverRead(queue), [])
    ensures Named(cfg, t, names)
  {
    if queue != [] {
      JudgeIsNamed(cfg, queue, CoreAt(s.core, queue[0].record.value.scope), names);
    }
  }

  lemma DropIsNamed(cfg: Config, s: State, queue: seq<Entry>, current: RuleSet, t: State, names: Names)
    requires StoreNamed(cfg, s.store, names) && QueueNamed(queue, names)
    requires t == RecoveryStep(cfg, s, RecoverDrop(queue, current), [])
    ensures Named(cfg, t, names)
  {}

  lemma FinishingIsNamed(cfg: Config, s: State, queue: seq<Entry>, call: Call, t: State, names: Names)
    requires StoreNamed(cfg, s.store, names) && QueueNamed(queue, names) && CallNamed(cfg, call, names)
    requires t == RecoveryStep(cfg, s, RecoverFinish(queue, call), [])
    ensures Named(cfg, t, names)
  {
    if IsFinishing(call) {
      FinishIsNamed(cfg, s.store, call, names);
    }
  }

  lemma RecoveryIsNamed(cfg: Config, s: State, listing: seq<Entry>, t: State, names: Names)
    requires Named(cfg, s, names) && s.process.Recovering?
    requires s.process.work.RecoverList? ==> IsListing(listing, s.store.pending)
    requires t == RecoveryStep(cfg, s, s.process.work, listing)
    ensures Named(cfg, t, names)
  {
    match s.process.work
    case RecoverList => ListingParts(listing, s.store.pending);
    case RecoverRead(queue) => ReadIsNamed(cfg, s, queue, t, names);
    case RecoverWait(queue) => WaitIsNamed(cfg, s, queue, t, names);
    case RecoverDrop(queue, current) => DropIsNamed(cfg, s, queue, current, t, names);
    case RecoverFinish(queue, call) => FinishingIsNamed(cfg, s, queue, call, t, names);
  }

  // ---- Every run ----

  /** The intents that Applies began with. */
  function Intents(events: seq<Event>): set<Pending> {
    set e | e in events && e.BeginApply? :: e.p
  }

  /** The requests that read Core's rules. */
  function Readings(events: seq<Event>): set<(Scope, string)> {
    set e | e in events && e.BeginCurrent? :: (e.scope, e.requestID)
  }

  lemma EventIsNamed(cfg: Config, s: State, e: Event, names: Names)
    requires Named(cfg, s, names) && Enabled(s, e)
    requires e.BeginApply? ==> e.p in names.intents
    requires e.BeginCurrent? ==> (e.scope, e.requestID) in names.readings
    ensures Named(cfg, Do(cfg, s, e), names)
  {
    if e.Advance? {
      CallIsNamed(cfg, s, s.process.calls[e.c], e.now, names);
    } else if e.Recover? {
      RecoveryIsNamed(cfg, s, e.queue, Do(cfg, s, e), names);
    }
  }

  lemma {:induction false} RunIsNamed(cfg: Config, s: State, events: seq<Event>, names: Names)
    requires Named(cfg, s, names) && IsRun(cfg, s, events)
    requires Intents(events) <= names.intents && Readings(events) <= names.readings
    ensures Named(cfg, After(cfg, s, events), names)
    decreases |events|
  {
    if events != [] {
      var e := events[0];
      assert e.BeginApply? ==> e.p in Intents(events);
      assert e.BeginCurrent? ==> (e.scope, e.requestID) in Readings(events);
      EventIsNamed(cfg, s, e, names);
      assert Intents(events[1..]) <= Intents(events) && Readings(events[1..]) <= Readings(events);
      RunIsNamed(cfg, Do(cfg, s, e), events[1..], names);
    }
  }

  /** Whatever interleaves, crashes or gets lost, each revision in the history carries the actor and
      the request ID of an Apply that asked for this revision and these rules, or was found in Core
      by a reading of its rules. */
  lemma HistoryNamesItsAuthors(cfg: Config, start: State, events: seq<Event>, id: RevisionID)
    requires Init(start) && IsRun(cfg, start, events) && id in After(cfg, start, events).store.history
    ensures var r := After(cfg, start, events).store.history[id].value;
            (exists p :: p in Intents(events) && IsFrom(cfg, r, p)) || IsFound(r, Readings(events))
  {
    RunIsNamed(cfg, start, events, Names(Intents(events), Readings(events), {}));
  }
}
