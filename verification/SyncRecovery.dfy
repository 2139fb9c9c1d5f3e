/** Startup recovery: what it settles on, that interruptions cannot change that, and that it ends. */
module SyncRecovery {
  import opened Results
  import opened Keys
  import opened Table
  import opened SyncProtocol
  import opened SyncSafety
  import Sorting
  import Text

  // ---- What recovery should do, record by record, without any mention of steps ----

  datatype Outcome = Outcome(core: map<Scope, RuleSet>, history: map<RevisionID, Versioned<Revision>>)

  function Recovered(p: Pending, current: RuleSet): Revision {
    Revision(p.scope, current.revision, current.hash, current.rules, p.actor, p.requestID, FromRecovery, p.createdAt)
  }

  /** Core's rules once the record has been put to it, if Core still stands where the record expects. */
  function Retried(cfg: Config, current: RuleSet, p: Pending): RuleSet {
    if current.revision == p.expected then RuleSet(p.target, cfg.hash(p.rules), p.rules) else current
  }

  predicate IsSettledBy(current: RuleSet, p: Pending) {
    current.revision == p.target && SameRules(current.rules, p.rules)
  }

  /** One record: install its rules if they are next in line, and record them if Core has them. */
  function SettleOne(cfg: Config, o: Outcome, p: Pending): Outcome {
    var current := CoreAt(o.core, p.scope);
    var now := Retried(cfg, current, p);
    var id := RevisionID(p.scope, now.revision);
    Outcome(if now == current then o.core else o.core[p.scope := now],
            if IsSettledBy(now, p) && id !in o.history then o.history[id := Versioned(Recovered(p, now), 1)]
            else o.history)
  }

  function SettleAll(cfg: Config, o: Outcome, queue: seq<Entry>): Outcome
    decreases |queue|
  {
    if queue == [] then o else SettleAll(cfg, SettleOne(cfg, o, queue[0].record.value), queue[1..])
  }

  // ---- The listing of the pending records is unique ----

  function KeyOfID(id: PendingID): string { PendingKey(id.scope, id.requestID) }

  lemma FirstIsLeast(queue: seq<Entry>, pending: map<PendingID, Versioned<Pending>>, id: PendingID)
    requires IsListing(queue, pending) && id in pending
    ensures queue != [] && (queue[0].id == id || Text.Less(KeyOfID(queue[0].id), KeyOfID(id)))
  {
    ListingParts(queue, pending);
    var i :| 0 <= i < |queue| && queue[i].id == id;
  }

  lemma FirstIsListed(queue: seq<Entry>, pending: map<PendingID, Versioned<Pending>>)
    requires IsListing(queue, pending) && queue != []
    ensures queue[0].id in pending && pending[queue[0].id] == queue[0].record
  {
    ListingParts(queue, pending);
  }

  lemma EmptyListing(pending: map<PendingID, Versioned<Pending>>)
    ensures IsListing([], pending) <==> pending == map[]
  {
    if IsListing([], pending) {
      ListingParts([], pending);
    }
  }

  lemma SameFirst(a: seq<Entry>, b: seq<Entry>, pending: map<PendingID, Versioned<Pending>>)
    requires IsListing(a, pending) && IsListing(b, pending) && a != []
    ensures b != [] && a[0] == b[0]
  {
    FirstIsListed(a, pending);
    FirstIsLeast(b, pending, a[0].id);
    FirstIsListed(b, pending);
    FirstIsLeast(a, pending, b[0].id);
    Text.LessTotal(KeyOfID(a[0].id), KeyOfID(b[0].id));
  }

  lemma {:induction false} ListingUnique(a: seq<Entry>, b: seq<Entry>, pending: map<PendingID, Versioned<Pending>>)
    requires IsListing(a, pending) && IsListing(b, pending)
    ensures a == b
    decreases |a|
  {
    if a == [] {
      if b != [] {
        SameFirst(b, a, pending);
      }
    } else {
      SameFirst(a, b, pending);
      ListingTail(a, pending);
      ListingTail(b, pending);
      ListingUnique(a[1..], b[1..], pending - {a[0].id});
      assert a == [a[0]] + a[1..] && b == [b[0]] + b[1..];
    }
  }

  lemma ListingTail(queue: seq<Entry>, pending: map<PendingID, Versioned<Pending>>)
    requires IsListing(queue, pending) && queue != []
    ensures IsListing(queue[1..], pending - {queue[0].id})
  {
    ListingIsDistinct(queue, pending);
    ListingParts(queue, pending);
    var rest := pending - {queue[0].id};
    forall id | id in rest
      ensures exists i :: 0 <= i < |queue[1..]| && queue[1..][i].id == id
    {
      var i :| 0 <= i < |queue| && queue[i].id == id;
      assert queue[1..][i - 1].id == id;
    }
  }

  ghost predicate IsFiled(e: Entry, key: string, pending: map<PendingID, Versioned<Pending>>) {
    key == KeyOfID(e.id) && e.id in pending && pending[e.id] == e.record
  }

  /** Entries filed under their keys and put in key order are the listing. */
  lemma FiledIsListing(byKey: map<string, Entry>, keys: seq<string>, queue: seq<Entry>,
                       pending: map<PendingID, Versioned<Pending>>)
    requires forall key :: key in byKey ==> IsFiled(byKey[key], key, pending)
    requires forall id :: id in pending ==> KeyOfID(id) in byKey
    requires Sorting.IsSorted(keys, byKey.Keys) && |queue| == |keys|
    requires forall i :: 0 <= i < |keys| ==> keys[i] in byKey && queue[i] == byKey[keys[i]]
    ensures IsListing(queue, pending)
  {
    forall i | 0 <= i < |queue|
      ensures IsFiled(queue[i], keys[i], pending)
    {}
    forall id | id in pending
      ensures exists i :: 0 <= i < |queue| && queue[i].id == id
    {
      var i :| 0 <= i < |keys| && keys[i] == KeyOfID(id);
      PendingKeyInjective(queue[i].id.scope, queue[i].id.requestID, id.scope, id.requestID);
      assert queue[i].id == id;
    }
  }

  lemma KeysDiffer(pending: map<PendingID, Versioned<Pending>>)
    ensures forall a, b :: a in pending && b in pending && KeyOfID(a) == KeyOfID(b) ==> a == b
  {
    forall a, b | a in pending && b in pending && KeyOfID(a) == KeyOfID(b)
      ensures a == b
    {
      PendingKeyInjective(a.scope, a.requestID, b.scope, b.requestID);
    }
  }

  lemma FiledByKey(pending: map<PendingID, Versioned<Pending>>) returns (byKey: map<string, Entry>)
    ensures forall key :: key in byKey ==> IsFiled(byKey[key], key, pending)
    ensures forall id :: id in pending ==> KeyOfID(id) in byKey
  {
    KeysDiffer(pending);
    byKey := map id | id in pending :: KeyOfID(id) := Entry(id, pending[id]);
  }

  lemma ListingExists(pending: map<PendingID, Versioned<Pending>>)
    ensures exists queue :: IsListing(queue, pending)
  {
    var byKey := FiledByKey(pending);
    var keys := Sorting.Sorted(byKey.Keys);
    forall i | 0 <= i < |keys|
      ensures keys[i] in byKey
    {
      assert keys[i] in keys;
    }
    var queue := seq(|keys|, i requires 0 <= i < |keys| => byKey[keys[i]]);
    FiledIsListing(byKey, keys, queue, pending);
  }

  // ---- Fate: what recovery will settle on, read off the surviving state alone ----

  ghost predicate IsFate(cfg: Config, s: State, o: Outcome) {
    exists queue :: IsListing(queue, s.store.pending) && o == SettleAll(cfg, Outcome(s.core, s.store.history), queue)
  }

  /** If the record is pending, it expects a revision Core has reached, and Core accepts its rules. */
  ghost predicate IsReady(cfg: Config, s: State, id: PendingID) {
    id in s.store.pending ==>
      var p := s.store.pending[id].value;
      p.expected <= CoreAt(s.core, id.scope).revision && cfg.accepts(id.scope, p.rules)
  }

  ghost predicate Ready(cfg: Config, s: State) { forall id :: IsReady(cfg, s, id) }

  /** What recovery knows between two of its own steps, when nothing else touches Core or the store. */
  ghost predicate OnCourse(s: State, work: Recovery) {
    match work
    case RecoverList => true
    case RecoverRead(queue) => IsListing(queue, s.store.pending)
    case RecoverWait(queue) =>
      queue != [] && IsListing(queue, s.store.pending)
      && CoreAt(s.core, queue[0].id.scope).revision == queue[0].record.value.expected
    case RecoverDrop(queue, current) =>
      queue != [] && IsListing(queue, s.store.pending)
      && current == CoreAt(s.core, queue[0].id.scope)
      && current.revision >= queue[0].record.value.target && !IsSettledBy(current, queue[0].record.value)
    case RecoverFinish(queue, call) =>
      queue != []
      && match call
         case FinishGet(r, id, version) => AtFinish(s, queue, r, id, version)
         case FinishForget(r, id, version) => AtFinish(s, queue, r, id, version) && RevisionOf(r) in s.store.history
         case FinishHead(r, id, version) => AtFinish(s, queue, r, id, version) && RevisionOf(r) !in s.store.history
         case FinishCommit(r, id, version, plan) =>
           AtFinish(s, queue, r, id, version) && RevisionOf(r) !in s.store.history
           && plan == PlanHead(s.store, r.scope, r.revision, r.hash)
         case HeadGet(scope, revision, hash) => IsListing(queue[1..], s.store.pending)
         case HeadPut(scope, revision, hash, expected) =>
           IsListing(queue[1..], s.store.pending) && PlanHead(s.store, scope, revision, hash) == Write(expected)
         case Returned(_, _) => IsListing(queue[1..], s.store.pending)
         case _ => false
  }

  ghost predicate AtFinish(s: State, queue: seq<Entry>, r: Revision, id: PendingID, version: nat)
    requires queue != []
  {
    var p, current := queue[0].record.value, CoreAt(s.core, queue[0].id.scope);
    && IsListing(queue, s.store.pending)
    && id == queue[0].id && version == queue[0].record.version
    && IsSettledBy(current, p) && r == Recovered(p, current)
  }

  ghost predicate Course(cfg: Config, s: State) {
    && Inv(cfg, s) && Ready(cfg, s)
    && (s.process == Down || (s.process.Recovering? && OnCourse(s, s.process.work))
        || (s.process == Serving(map[]) && s.store.pending == map[]))
  }

  /** Steps that recovery still has before it, at most. */
  ghost function StepsLeft(work: Recovery): nat {
    match work
    case RecoverList => 0
    case RecoverRead(queue) => 1 + 8 * |queue|
    case RecoverWait(queue) => 8 * |queue|
    case RecoverDrop(queue, _) => if queue == [] then 0 else 8 * |queue| - 6
    case RecoverFinish(queue, call) =>
      if queue == [] then 0 else 8 * |queue| - 7 + (match call
        case FinishGet(_, _, _) => 6
        case FinishHead(_, _, _) => 5
        case FinishForget(_, _, _) => 4
        case HeadGet(_, _, _) => 3
        case FinishCommit(_, _, _, _) => 2
        case HeadPut(_, _, _, _) => 2
        case _ => 1)
  }

  // ---- Each step stays on course and leaves the fate alone ----

  ghost predicate SameFate(cfg: Config, s: State, t: State) {
    forall o :: IsFate(cfg, s, o) <==> IsFate(cfg, t, o)
  }

  lemma SameWorldSameFate(cfg: Config, s: State, t: State)
    requires t.core == s.core && t.store.history == s.store.history && t.store.pending == s.store.pending
    ensures SameFate(cfg, s, t)
  {}

  /** The fate is known from any one listing. */
  lemma FateFrom(cfg: Config, s: State, queue: seq<Entry>)
    requires IsListing(queue, s.store.pending)
    ensures forall o :: IsFate(cfg, s, o) <==> o == SettleAll(cfg, Outcome(s.core, s.store.history), queue)
  {
    forall o | IsFate(cfg, s, o)
      ensures o == SettleAll(cfg, Outcome(s.core, s.store.history), queue)
    {
      var other :| IsListing(other, s.store.pending) && o == SettleAll(cfg, Outcome(s.core, s.store.history), other);
      ListingUnique(queue, other, s.store.pending);
    }
  }

  /** Installing the first record's rules ahead of time does not change what is settled. */
  lemma InstallKeepsFate(cfg: Config, s: State, t: State, queue: seq<Entry>)
    requires queue != [] && IsListing(queue, s.store.pending) && t.store == s.store
    requires var p := queue[0].record.value;
             p.target == p.expected + 1 && p.scope == queue[0].id.scope
             && CoreAt(s.core, p.scope).revision == p.expected
             && t.core == s.core[p.scope := RuleSet(p.target, cfg.hash(p.rules), p.rules)]
    ensures SameFate(cfg, s, t)
  {
    FateFrom(cfg, s, queue);
    FateFrom(cfg, t, queue);
  }

  /** Once the first record's part of the outcome is in place, forgetting it changes nothing. */
  lemma RemovalKeepsFate(cfg: Config, s: State, t: State, queue: seq<Entry>)
    requires queue != [] && IsListing(queue, s.store.pending)
    requires t.store.pending == s.store.pending - {queue[0].id}
    requires Outcome(t.core, t.store.history) == SettleOne(cfg, Outcome(s.core, s.store.history), queue[0].record.value)
    ensures SameFate(cfg, s, t) && IsListing(queue[1..], t.store.pending)
  {
    ListingTail(queue, s.store.pending);
    FateFrom(cfg, s, queue);
    FateFrom(cfg, t, queue[1..]);
  }

  // ---- One step ----

  /** The process after a step: further along, or done with an empty queue. */
  ghost predicate Further(s: State, work: Recovery, t: State) {
    || (t.process.Recovering? && !t.process.work.RecoverList? && OnCourse(t, t.process.work)
        && (work.RecoverList? || StepsLeft(t.process.work) < StepsLeft(work)))
    || (t.process == Serving(map[]) && t.store.pending == map[])
  }

  ghost predicate WellFormedPending(s: State) {
    forall id :: id in s.store.pending ==>
      s.store.pending[id].value.ID() == id && s.store.pending[id].value.target == s.store.pending[id].value.expected + 1
  }

  lemma AllWellFormed(cfg: Config, s: State)
    requires Inv(cfg, s)
    ensures WellFormedPending(s)
  {
    Parts(cfg, s);
    SoundParts(cfg, s);
  }

  lemma FirstIsWellFormed(s: State, queue: seq<Entry>)
    requires WellFormedPending(s) && queue != [] && IsListing(queue, s.store.pending)
    ensures queue[0].id in s.store.pending && s.store.pending[queue[0].id] == queue[0].record
    ensures var p := queue[0].record.value;
            p.ID() == queue[0].id && p.scope == queue[0].id.scope && p.target == p.expected + 1
  {
    FirstIsListed(queue, s.store.pending);
  }

  lemma JudgedOnCourse(s: State, queue: seq<Entry>)
    requires WellFormedPending(s) && queue != [] && IsListing(queue, s.store.pending)
    requires CoreAt(s.core, queue[0].id.scope).revision >= queue[0].record.value.target
    ensures var next := Judge(queue, CoreAt(s.core, queue[0].id.scope));
            next.Some? && OnCourse(s, next.value) && StepsLeft(next.value) < 8 * |queue|
  {
    FirstIsWellFormed(s, queue);
  }

  lemma OnCourseElsewhere(s: State, t: State, work: Recovery)
    requires OnCourse(s, work) && t.core == s.core && t.store == s.store
    ensures OnCourse(t, work)
  {}

  lemma ReadyElsewhere(cfg: Config, s: State, t: State)
    requires Ready(cfg, s) && forall scope :: CoreAt(s.core, scope).revision <= CoreAt(t.core, scope).revision
    requires forall id :: id in t.store.pending ==> id in s.store.pending && t.store.pending[id] == s.store.pending[id]
    ensures Ready(cfg, t)
  {
    forall id ensures IsReady(cfg, t, id) { assert IsReady(cfg, s, id); }
  }

  lemma FirstIsReady(cfg: Config, s: State, queue: seq<Entry>)
    requires WellFormedPending(s) && Ready(cfg, s) && queue != [] && IsListing(queue, s.store.pending)
    ensures var p := queue[0].record.value;
            p.expected <= CoreAt(s.core, p.scope).revision && cfg.accepts(p.scope, p.rules)
  {
    FirstIsWellFormed(s, queue);
    assert IsReady(cfg, s, queue[0].id);
  }

  lemma ReadyAfter(cfg: Config, s: State, t: State)
    requires Ready(cfg, s) && Grows(s, t)
    requires forall id :: id in t.store.pending ==> id in s.store.pending && t.store.pending[id] == s.store.pending[id]
    ensures Ready(cfg, t)
  {
    GrowsEverywhere(s, t);
    ReadyElsewhere(cfg, s, t);
  }

  lemma ReadStep(cfg: Config, s: State, queue: seq<Entry>)
    requires WellFormedPending(s) && Ready(cfg, s) && OnCourse(s, RecoverRead(queue))
    ensures var t := RecoveryStep(cfg, s, RecoverRead(queue), []);
            Further(s, RecoverRead(queue), t) && Ready(cfg, t) && SameFate(cfg, s, t)
  {
    var t := RecoveryStep(cfg, s, RecoverRead(queue), []);
    SameWorldSameFate(cfg, s, t);
    ReadyElsewhere(cfg, s, t);
    if queue == [] {
      EmptyListing(s.store.pending);
    } else {
      FirstIsWellFormed(s, queue);
      FirstIsReady(cfg, s, queue);
      if CoreAt(s.core, queue[0].id.scope).revision != queue[0].record.value.expected {
        JudgedOnCourse(s, queue);
        OnCourseElsewhere(s, t, t.process.work);
      }
    }
  }

  lemma WaitInstalls(cfg: Config, s: State, queue: seq<Entry>)
    requires WellFormedPending(s) && Ready(cfg, s) && OnCourse(s, RecoverWait(queue))
    ensures var p := queue[0].record.value;
            var installed := RuleSet(p.target, cfg.hash(p.rules), p.rules);
            CoreReply(cfg, CoreAt(s.core, p.scope), p.Ask()) == Accepted(installed)
            && Handle(cfg, s, p.Ask()).core == s.core[p.scope := installed] && Handle(cfg, s, p.Ask()).store == s.store
  {
    FirstIsWellFormed(s, queue);
    FirstIsReady(cfg, s, queue);
  }

  lemma WaitStep(cfg: Config, s: State, queue: seq<Entry>)
    requires WellFormedPending(s) && Ready(cfg, s) && OnCourse(s, RecoverWait(queue))
    ensures var t := RecoveryStep(cfg, s, RecoverWait(queue), []);
            Further(s, RecoverWait(queue), t) && Ready(cfg, t) && SameFate(cfg, s, t)
  {
    var p := queue[0].record.value;
    FirstIsWellFormed(s, queue);
    WaitInstalls(cfg, s, queue);
    var u := Handle(cfg, s, p.Ask());
    var t := RecoveryStep(cfg, s, RecoverWait(queue), []);
    InstallKeepsFate(cfg, s, u, queue);
    SameWorldSameFate(cfg, u, t);
    ReadyElsewhere(cfg, s, t);
    JudgedOnCourse(u, queue);
    OnCourseElsewhere(u, t, t.process.work);
  }

  lemma DropStep(cfg: Config, s: State, queue: seq<Entry>, current: RuleSet)
    requires WellFormedPending(s) && Ready(cfg, s) && OnCourse(s, RecoverDrop(queue, current))
    ensures var t := RecoveryStep(cfg, s, RecoverDrop(queue, current), []);
            Further(s, RecoverDrop(queue, current), t) && Ready(cfg, t) && SameFate(cfg, s, t)
  {
    var t := RecoveryStep(cfg, s, RecoverDrop(queue, current), []);
    FirstIsWellFormed(s, queue);
    RemovalKeepsFate(cfg, s, t, queue);
    ReadyElsewhere(cfg, s, t);
  }

  lemma ForgetStep(cfg: Config, s: State, queue: seq<Entry>, call: Call)
    requires WellFormedPending(s) && Ready(cfg, s) && call.FinishForget? && OnCourse(s, RecoverFinish(queue, call))
    ensures var t := RecoveryStep(cfg, s, RecoverFinish(queue, call), []);
            Further(s, RecoverFinish(queue, call), t) && Ready(cfg, t) && SameFate(cfg, s, t)
  {
    var t := RecoveryStep(cfg, s, RecoverFinish(queue, call), []);
    FirstIsWellFormed(s, queue);
    RemovalKeepsFate(cfg, s, t, queue);
    ReadyElsewhere(cfg, s, t);
  }

  lemma CommitSucceeds(s: State, queue: seq<Entry>, call: Call)
    requires WellFormedPending(s) && StoreInv(s) && call.FinishCommit? && !call.plan.Clash?
    requires OnCourse(s, RecoverFinish(queue, call))
    ensures var (store, next) := FinishStep(s.store, call);
            next.Returned? && store.history == s.store.history[RevisionOf(call.r) := Versioned(call.r, 1)]
            && store.pending == s.store.pending - {queue[0].id}
  {
    FirstIsWellFormed(s, queue);
  }

  lemma CommitStep(cfg: Config, s: State, queue: seq<Entry>, call: Call)
    requires StoreInv(s) && Ready(cfg, s) && call.FinishCommit? && !call.plan.Clash?
    requires OnCourse(s, RecoverFinish(queue, call))
    ensures var t := RecoveryStep(cfg, s, RecoverFinish(queue, call), []);
            Further(s, RecoverFinish(queue, call), t) && Ready(cfg, t) && SameFate(cfg, s, t)
  {
    CommitSucceeds(s, queue, call);
    var (store, next) := FinishStep(s.store, call);
    Committed(cfg, s, queue, call, s.(store := store, process := Recovering(RecoverFinish(queue, next))), next);
  }

  /** The first record is in history and out of the queue. */
  lemma Committed(cfg: Config, s: State, queue: seq<Entry>, call: Call, t: State, next: Call)
    requires WellFormedPending(s) && Ready(cfg, s) && call.FinishCommit? && OnCourse(s, RecoverFinish(queue, call))
    requires next.Returned?
    requires t == s.(store := t.store, process := Recovering(RecoverFinish(queue, next)))
    requires t.store.pending == s.store.pending - {queue[0].id}
    requires t.store.history == s.store.history[RevisionOf(call.r) := Versioned(call.r, 1)]
    ensures Further(s, RecoverFinish(queue, call), t) && Ready(cfg, t) && SameFate(cfg, s, t)
  {
    FirstIsWellFormed(s, queue);
    RemovalKeepsFate(cfg, s, t, queue);
    ReadyElsewhere(cfg, s, t);
  }

  lemma GetCourse(s: State, queue: seq<Entry>, call: Call, t: State)
    requires StoreInv(s) && CallInv(s, call) && (call.FinishGet? || call.FinishHead?)
    requires OnCourse(s, RecoverFinish(queue, call))
    requires t.core == s.core && t.store == s.store
    requires t.process == Recovering(RecoverFinish(queue, FinishStep(s.store, call).1))
    ensures Further(s, RecoverFinish(queue, call), t)
  {
    CallHashes(s, call);
    assert AtFinish(t, queue, call.r, call.id, call.version);
  }

  lemma HeadGetCourse(s: State, queue: seq<Entry>, scope: Scope, revision: nat, hash: string, t: State)
    requires HeadsAreNamed(s) && InHistory(s, scope, revision, hash)
    requires queue != [] && IsListing(queue[1..], s.store.pending) && t.store == s.store
    requires t.process == Recovering(RecoverFinish(queue, FinishStep(s.store, HeadGet(scope, revision, hash)).1))
    ensures Further(s, RecoverFinish(queue, HeadGet(scope, revision, hash)), t)
  {
    PlanIsSound(s, scope, revision, hash);
  }

  lemma HeadPutCourse(s: State, queue: seq<Entry>, call: Call, t: State)
    requires HeadsAreNamed(s) && call.HeadPut?
    requires PlanHead(s.store, call.scope, call.revision, call.hash) == Write(call.expected)
    requires queue != [] && IsListing(queue[1..], s.store.pending)
    requires t.store == FinishStep(s.store, call).0
    requires t.process == Recovering(RecoverFinish(queue, FinishStep(s.store, call).1))
    ensures Further(s, RecoverFinish(queue, call), t)
  {
    PlannedPut(s, call.scope, call.revision, call.hash, call.expected);
  }

  /** A head that is still as it was when the write was planned is written. */
  lemma PlannedPut(s: State, scope: Scope, revision: nat, hash: string, expected: nat)
    requires HeadsAreNamed(s) && PlanHead(s.store, scope, revision, hash) == Write(expected)
    ensures var (store, next) := FinishStep(s.store, HeadPut(scope, revision, hash, expected));
            next.Returned? && store.pending == s.store.pending && store.history == s.store.history
  {}

  lemma FinishStepIs(cfg: Config, s: State, queue: seq<Entry>, call: Call, t: State)
    requires queue != [] && IsFinishing(call) && t == RecoveryStep(cfg, s, RecoverFinish(queue, call), [])
    ensures t == s.(store := FinishStep(s.store, call).0,
                    process := Recovering(RecoverFinish(queue, FinishStep(s.store, call).1)))
  {}

  lemma QuietWorld(store: Store, call: Call)
    requires IsFinishing(call) && !call.FinishForget? && !call.FinishCommit?
    ensures FinishStep(store, call).0.pending == store.pending && FinishStep(store, call).0.history == store.history
  {}

  lemma QuietFinishStep(cfg: Config, s: State, queue: seq<Entry>, call: Call, t: State)
    requires StoreInv(s) && CallInv(s, call) && OnCourse(s, RecoverFinish(queue, call))
    requires !call.FinishForget? && !call.FinishCommit? && t == RecoveryStep(cfg, s, RecoverFinish(queue, call), [])
    ensures Further(s, RecoverFinish(queue, call), t) && t.core == s.core
    ensures t.store.history == s.store.history && t.store.pending == s.store.pending
  {
    if IsFinishing(call) {
      FinishStepIs(cfg, s, queue, call, t);
      QuietWorld(s.store, call);
      QuietFurther(s, queue, call, t);
    }
  }

  lemma QuietFurther(s: State, queue: seq<Entry>, call: Call, t: State)
    requires StoreInv(s) && CallInv(s, call) && OnCourse(s, RecoverFinish(queue, call))
    requires IsFinishing(call) && !call.FinishForget? && !call.FinishCommit?
    requires t == s.(store := FinishStep(s.store, call).0,
                     process := Recovering(RecoverFinish(queue, FinishStep(s.store, call).1)))
    ensures Further(s, RecoverFinish(queue, call), t)
  {
    if call.FinishGet? || call.FinishHead? {
      GetCourse(s, queue, call, t);
    } else if call.HeadGet? {
      HeadGetCourse(s, queue, call.scope, call.revision, call.hash, t);
    } else if call.HeadPut? {
      HeadPutCourse(s, queue, call, t);
    }
  }

  lemma CourseStep(cfg: Config, s: State, listing: seq<Entry>, now: nat)
    requires Course(cfg, s) && Enabled(s, Recover(listing, now))
    ensures var t := Do(cfg, s, Recover(listing, now));
            Course(cfg, t) && SameFate(cfg, s, t) && Further(s, s.process.work, t)
            && (s.process.work.RecoverList? ==> t.process == Recovering(RecoverRead(listing)))
  {
    Parts(cfg, s);
    SoundParts(cfg, s);
    EventKeeps(cfg, s, Recover(listing, now));
    var t := Do(cfg, s, Recover(listing, now));
    match s.process.work
    case RecoverList =>
      SameWorldSameFate(cfg, s, t);
      ReadyElsewhere(cfg, s, t);
    case RecoverRead(queue) => ReadStep(cfg, s, queue);
    case RecoverWait(queue) => WaitStep(cfg, s, queue);
    case RecoverDrop(queue, current) => DropStep(cfg, s, queue, current);
    case RecoverFinish(queue, call) => FinishCourseStep(cfg, s, queue, call);
  }

  lemma FinishCourseStep(cfg: Config, s: State, queue: seq<Entry>, call: Call)
    requires StoreInv(s) && CallInv(s, call) && Ready(cfg, s) && OnCourse(s, RecoverFinish(queue, call))
    ensures var t := RecoveryStep(cfg, s, RecoverFinish(queue, call), []);
            Further(s, RecoverFinish(queue, call), t) && Ready(cfg, t) && SameFate(cfg, s, t)
  {
    if call.FinishForget? {
      ForgetStep(cfg, s, queue, call);
    } else if call.FinishCommit? {
      CommitStep(cfg, s, queue, call);
    } else {
      var t := RecoveryStep(cfg, s, RecoverFinish(queue, call), []);
      QuietFinishStep(cfg, s, queue, call, t);
      SameWorldSameFate(cfg, s, t);
      ReadyElsewhere(cfg, s, t);
    }
  }

  // ---- Any number of interruptions ----

  /** Only recovery moves: its own steps, crashes and restarts. */
  ghost predicate OnlyRecovery(events: seq<Event>) {
    forall i :: 0 <= i < |events| ==> events[i].Recover? || events[i].Crash? || events[i].Restart?
  }

  lemma CourseEvent(cfg: Config, s: State, e: Event)
    requires Course(cfg, s) && Enabled(s, e) && (e.Recover? || e.Crash? || e.Restart?)
    ensures Course(cfg, Do(cfg, s, e)) && SameFate(cfg, s, Do(cfg, s, e))
  {
    if e.Recover? {
      CourseStep(cfg, s, e.queue, e.now);
    } else {
      EventKeeps(cfg, s, e);
      SameWorldSameFate(cfg, s, Do(cfg, s, e));
      ReadyElsewhere(cfg, s, Do(cfg, s, e));
    }
  }

  lemma {:induction false} CourseRun(cfg: Config, s: State, events: seq<Event>)
    requires Course(cfg, s) && OnlyRecovery(events) && IsRun(cfg, s, events)
    ensures Course(cfg, After(cfg, s, events)) && SameFate(cfg, s, After(cfg, s, events))
    decreases |events|
  {
    if events != [] {
      CourseEvent(cfg, s, events[0]);
      CourseRun(cfg, Do(cfg, s, events[0]), events[1..]);
    }
  }

  /** Where nothing is pending any more, the outcome is what the records settle on. */
  lemma ServingIsSettled(cfg: Config, s: State, queue: seq<Entry>, t: State)
    requires IsListing(queue, s.store.pending) && SameFate(cfg, s, t) && Course(cfg, t) && t.process.Serving?
    ensures Outcome(t.core, t.store.history) == SettleAll(cfg, Outcome(s.core, s.store.history), queue)
    ensures t.store.pending == map[]
  {
    var o := SettleAll(cfg, Outcome(s.core, s.store.history), queue);
    assert IsFate(cfg, s, o) && IsFate(cfg, t, o);
    assert IsListing([], t.store.pending);
    FateFrom(cfg, t, []);
  }

  /** Stopping recovery at any step, any number of times, and starting over: whenever it gets to
      the end, Core and the history are what the records settle on, and nothing is pending. */
  lemma InterruptionsDoNotMatter(cfg: Config, s: State, queue: seq<Entry>, events: seq<Event>)
    requires Reachable(cfg, s) && s.process.Down? && Ready(cfg, s) && IsListing(queue, s.store.pending)
    requires OnlyRecovery(events) && IsRun(cfg, s, events) && After(cfg, s, events).process.Serving?
    ensures var t := After(cfg, s, events);
            Outcome(t.core, t.store.history) == SettleAll(cfg, Outcome(s.core, s.store.history), queue)
            && t.store.pending == map[]
  {
    ReachableInv(cfg, s);
    CourseRun(cfg, s, events);
    ServingIsSettled(cfg, s, queue, After(cfg, s, events));
  }

  // ---- Recovery ends ----

  lemma RunCons(cfg: Config, s: State, e: Event, rest: seq<Event>)
    requires Enabled(s, e) && IsRun(cfg, Do(cfg, s, e), rest)
    ensures IsRun(cfg, s, [e] + rest) && After(cfg, s, [e] + rest) == After(cfg, Do(cfg, s, e), rest)
  {
    assert ([e] + rest)[1..] == rest;
  }

  /** The events of an uninterrupted recovery from where it stands. */
  lemma {:induction false} Finish(cfg: Config, s: State) returns (events: seq<Event>)
    requires Course(cfg, s) && s.process.Recovering? && !s.process.work.RecoverList?
    ensures IsRun(cfg, s, events) && OnlyRecovery(events) && |events| <= 1 + StepsLeft(s.process.work)
    ensures After(cfg, s, events).process == Serving(map[])
    decreases StepsLeft(s.process.work)
  {
    var e := Recover([], 0);
    CourseStep(cfg, s, [], 0);
    var t := Do(cfg, s, e);
    var rest := [];
    if t.process.Recovering? {
      rest := FinishNext(cfg, s, t);
    }
    events := [e] + rest;
    RunCons(cfg, s, e, rest);
  }

  lemma {:induction false} FinishNext(cfg: Config, s: State, t: State) returns (rest: seq<Event>)
    requires s.process.Recovering? && !s.process.work.RecoverList? && t.process.Recovering?
    requires Course(cfg, t) && Further(s, s.process.work, t)
    ensures IsRun(cfg, t, rest) && OnlyRecovery(rest) && |rest| <= StepsLeft(s.process.work)
    ensures After(cfg, t, rest).process == Serving(map[])
    decreases StepsLeft(s.process.work), 0
  {
    rest := Finish(cfg, t);
  }

  /** From any reachable state in which recovery can succeed, restarting drains the queue within
      eight steps per record: nothing is pending, and Core's current revision is in the history
      wherever it was installed on behalf of a request. */
  lemma RecoveryDrains(cfg: Config, s: State, queue: seq<Entry>) returns (events: seq<Event>)
    requires Reachable(cfg, s) && s.process.Down? && Ready(cfg, s) && IsListing(queue, s.store.pending)
    ensures OnlyRecovery(events) && IsRun(cfg, s, events) && |events| <= 4 + 8 * |queue|
    ensures var t := After(cfg, s, events);
            t.process == Serving(map[]) && t.store.pending == map[]
            && forall scope :: scope in t.installer ==>
                 RevisionID(scope, CoreAt(t.core, scope).revision) in t.store.history
  {
    ReachableInv(cfg, s);
    events := DrainFrom(cfg, s, queue);
    InterruptionsDoNotMatter(cfg, s, queue, events);
    EndIsRecorded(cfg, s, events);
  }

  lemma Restarted(cfg: Config, s: State, queue: seq<Entry>)
    requires Course(cfg, s) && s.process.Down? && IsListing(queue, s.store.pending)
    ensures var a := s.(process := Recovering(RecoverList));
            var b := s.(process := Recovering(RecoverRead(queue)));
            Do(cfg, s, Restart) == a && Enabled(a, Recover(queue, 0)) && Do(cfg, a, Recover(queue, 0)) == b
            && Course(cfg, b)
  {
    CourseEvent(cfg, s, Restart);
    CourseStep(cfg, s.(process := Recovering(RecoverList)), queue, 0);
  }

  lemma DrainFrom(cfg: Config, s: State, queue: seq<Entry>) returns (events: seq<Event>)
    requires Course(cfg, s) && s.process.Down? && IsListing(queue, s.store.pending)
    ensures OnlyRecovery(events) && IsRun(cfg, s, events) && |events| <= 4 + 8 * |queue|
    ensures After(cfg, s, events).process == Serving(map[])
  {
    Restarted(cfg, s, queue);
    var a := s.(process := Recovering(RecoverList));
    var rest := Finish(cfg, s.(process := Recovering(RecoverRead(queue))));
    RunCons(cfg, a, Recover(queue, 0), rest);
    RunCons(cfg, s, Restart, [Recover(queue, 0)] + rest);
    events := [Restart] + ([Recover(queue, 0)] + rest);
  }

  lemma EndIsRecorded(cfg: Config, s: State, events: seq<Event>)
    requires Inv(cfg, s) && IsRun(cfg, s, events) && After(cfg, s, events).store.pending == map[]
    ensures var t := After(cfg, s, events);
            forall scope :: scope in t.installer ==>
              RevisionID(scope, CoreAt(t.core, scope).revision) in t.store.history
  {
    RunKeeps(cfg, s, events);
    NothingPendingIsRecorded(cfg, After(cfg, s, events));
  }

  lemma NothingPendingIsRecorded(cfg: Config, t: State)
    requires Inv(cfg, t) && t.store.pending == map[]
    ensures forall scope :: scope in t.installer ==>
              RevisionID(scope, CoreAt(t.core, scope).revision) in t.store.history
  {
    Parts(cfg, t);
    SoundParts(cfg, t);
    forall scope | scope in t.installer
      ensures RevisionID(scope, CoreAt(t.core, scope).revision) in t.store.history
    {
      assert Remembered(t, scope);
    }
  }

  // ---- What stops recovery ----

  /** A record that recovery cannot get past: it expects a revision Core has not reached, or it is
      next in line and Core refuses its rules. */
  predicate Blocks(cfg: Config, current: RuleSet, p: Pending) {
    current.revision < p.expected || (current.revision == p.expected && !cfg.accepts(p.scope, p.rules))
  }

  /** Recovery stops at the first record exactly if that record blocks it, and then it has changed nothing. */
  lemma StopsIffBlocked(cfg: Config, s: State, queue: seq<Entry>)
    requires WellFormedPending(s) && queue != [] && IsListing(queue, s.store.pending)
    ensures var p := queue[0].record.value;
            var t := RecoveryStep(cfg, s, RecoverRead(queue), []);
            var u := if t.process == Recovering(RecoverWait(queue)) then RecoveryStep(cfg, t, RecoverWait(queue), [])
                     else t;
            && (u.process == Down <==> Blocks(cfg, CoreAt(s.core, p.scope), p))
            && (u.process == Down ==> u.core == s.core && u.store == s.store && u.timeline == s.timeline)
  {
    FirstIsWellFormed(s, queue);
    var t := RecoveryStep(cfg, s, RecoverRead(queue), []);
    if t.process == Recovering(RecoverWait(queue)) {
      WaitsIffNext(cfg, s, queue);
      RefusedIffBlocked(cfg, t, queue);
    }
  }

  lemma WaitsIffNext(cfg: Config, s: State, queue: seq<Entry>)
    requires queue != []
    ensures var t := RecoveryStep(cfg, s, RecoverRead(queue), []);
            t.process == Recovering(RecoverWait(queue)) ==>
              t == s.(process := t.process)
              && CoreAt(s.core, queue[0].record.value.scope).revision == queue[0].record.value.expected
  {}

  lemma RefusedIffBlocked(cfg: Config, t: State, queue: seq<Entry>)
    requires queue != []
    requires var p := queue[0].record.value;
             p.target == p.expected + 1 && CoreAt(t.core, p.scope).revision == p.expected
    ensures var p := queue[0].record.value;
            var u := RecoveryStep(cfg, t, RecoverWait(queue), []);
            && (u.process == Down <==> Blocks(cfg, CoreAt(t.core, p.scope), p))
            && (u.process == Down ==> u.core == t.core && u.store == t.store && u.timeline == t.timeline)
  {}
}
