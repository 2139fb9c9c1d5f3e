/** Startup recovery while requests stranded by an earlier process still reach Core: what stops an
    attempt, how often that can happen, and when it cannot happen at all. */
module SyncLate {
  import opened Counting
  import opened Results
  import opened Keys
  import opened Table
  import opened SyncProtocol
  import opened SyncSafety
  import opened SyncRecovery
  import Text

  // ---- Late requests ----

  predicate IsLate(e: Event) { e.HandleOrphan? || e.LoseOrphan? }

  /** Recovery steps, crashes, restarts, and requests that arrive late or get lost. */
  predicate InRecovery(e: Event) { e.Recover? || e.Crash? || e.Restart? || IsLate(e) }

  ghost predicate AllInRecovery(events: seq<Event>) {
    forall i :: 0 <= i < |events| ==> InRecovery(events[i])
  }

  ghost predicate AllLate(events: seq<Event>) {
    forall i :: 0 <= i < |events| ==> IsLate(events[i])
  }

  /** A late request leaves the store alone and takes nothing away from recovery. */
  lemma LateKeepsReady(cfg: Config, s: State, e: Event)
    requires Inv(cfg, s) && Ready(cfg, s) && Enabled(s, e) && IsLate(e)
    ensures var t := Do(cfg, s, e); Inv(cfg, t) && Ready(cfg, t) && t.store == s.store && t.process == s.process
  {
    EventKeeps(cfg, s, e);
    ReadyElsewhere(cfg, s, Do(cfg, s, e));
  }

  // ---- What recovery knows whatever Core does meanwhile ----

  ghost predicate AtRecord(store: Store, queue: seq<Entry>, id: PendingID, version: nat)
    requires queue != []
  {
    IsListing(queue, store.pending) && id == queue[0].id && version == queue[0].record.version
  }

  ghost predicate FinishUnderway(store: Store, queue: seq<Entry>, call: Call)
    requires queue != []
  {
    match call
    case FinishGet(r, id, version) => AtRecord(store, queue, id, version)
    case FinishForget(r, id, version) => AtRecord(store, queue, id, version)
    case FinishHead(r, id, version) => AtRecord(store, queue, id, version) && RevisionOf(r) !in store.history
    case FinishCommit(r, id, version, plan) =>
      && AtRecord(store, queue, id, version) && RevisionOf(r) !in store.history
      && plan == PlanHead(store, r.scope, r.revision, r.hash)
    case HeadGet(_, _, _) => IsListing(queue[1..], store.pending)
    case HeadPut(scope, revision, hash, expected) =>
      IsListing(queue[1..], store.pending) && PlanHead(store, scope, revision, hash) == Write(expected)
    case Returned(_, _) => IsListing(queue[1..], store.pending)
    case _ => false
  }

  ghost predicate Underway(store: Store, work: Recovery) {
    match work
    case RecoverList => true
    case RecoverRead(queue) => IsListing(queue, store.pending)
    case RecoverWait(queue) => queue != [] && IsListing(queue, store.pending)
    case RecoverDrop(queue, current) =>
      && queue != [] && IsListing(queue, store.pending)
      && current.revision >= queue[0].record.value.target && !IsSettledBy(current, queue[0].record.value)
    case RecoverFinish(queue, call) => queue != [] && FinishUnderway(store, queue, call)
  }

  /** Recovery can go on, or is through with nothing left pending. */
  ghost predicate Steady(cfg: Config, s: State) {
    && Inv(cfg, s) && Ready(cfg, s)
    && match s.process
       case Down => true
       case Recovering(work) => Underway(s.store, work)
       case Serving(calls) => calls == map[] && s.store.pending == map[]
  }

  /** Core has moved on from where the record wants to go: its next revision is taken by other rules. */
  predicate Beaten(cfg: Config, current: RuleSet, p: Pending) {
    current.revision != p.expected && !(current.revision == p.target && current.hash == cfg.hash(p.rules))
  }

  /** Recovery is about to ask Core for a record whose place is taken. */
  ghost predicate Overtaken(cfg: Config, s: State) {
    && s.process.Recovering? && s.process.work.RecoverWait? && s.process.work.queue != []
    && var p := s.process.work.queue[0].record.value; Beaten(cfg, CoreAt(s.core, p.scope), p)
  }

  // ---- One step of recovery ----

  /** Further along than before. */
  ghost predicate Ahead(store: Store, work: Recovery, next: Recovery) {
    !next.RecoverList? && Underway(store, next) && (work.RecoverList? || StepsLeft(next) < StepsLeft(work))
  }

  /** Further along than before, or through. */
  ghost predicate Onward(work: Recovery, t: State) {
    || (t.process.Recovering? && Ahead(t.store, work, t.process.work))
    || (t.process == Serving(map[]) && t.store.pending == map[])
  }

  lemma JudgedUnderway(store: Store, queue: seq<Entry>, current: RuleSet)
    requires queue != [] && IsListing(queue, store.pending) && current.revision >= queue[0].record.value.target
    ensures var next := Judge(queue, current);
            next.Some? && Ahead(store, RecoverRead(queue), next.value) && Ahead(store, RecoverWait(queue), next.value)
  {}

  lemma ReadOnward(cfg: Config, s: State, queue: seq<Entry>, t: State)
    requires WellFormedPending(s) && Ready(cfg, s) && IsListing(queue, s.store.pending)
    requires t == RecoveryStep(cfg, s, RecoverRead(queue), [])
    ensures Onward(RecoverRead(queue), t) && !Overtaken(cfg, t)
  {
    if queue == [] {
      EmptyListing(s.store.pending);
    } else {
      FirstIsWellFormed(s, queue);
      FirstIsReady(cfg, s, queue);
      if CoreAt(s.core, queue[0].id.scope).revision != queue[0].record.value.expected {
        JudgedUnderway(t.store, queue, CoreAt(s.core, queue[0].id.scope));
      }
    }
  }

  /** What Core answers to a record that is asked for. */
  lemma AskAnswer(cfg: Config, current: RuleSet, p: Pending)
    requires p.target == p.expected + 1 && p.expected <= current.revision && cfg.accepts(p.scope, p.rules)
    ensures var reply := CoreReply(cfg, current, p.Ask());
            && (reply.Refused? <==> Beaten(cfg, current, p))
            && (reply.Accepted? ==> reply.current.revision == p.target)
  {}

  lemma WaitStepIs(cfg: Config, s: State, queue: seq<Entry>, t: State)
    requires queue != [] && t == RecoveryStep(cfg, s, RecoverWait(queue), [])
    ensures var p := queue[0].record.value;
            var reply := CoreReply(cfg, CoreAt(s.core, p.scope), p.Ask());
            && t.store == s.store
            && t.process == if reply.Accepted? then Proceed(Judge(queue, reply.current)) else Down
  {}

  lemma WaitOnward(cfg: Config, s: State, queue: seq<Entry>, t: State)
    requires WellFormedPending(s) && Ready(cfg, s) && queue != [] && IsListing(queue, s.store.pending)
    requires s.process == Recovering(RecoverWait(queue)) && t == RecoveryStep(cfg, s, RecoverWait(queue), [])
    ensures if Overtaken(cfg, s) then t.process == Down else Onward(RecoverWait(queue), t)
  {
    var p := queue[0].record.value;
    FirstIsWellFormed(s, queue);
    FirstIsReady(cfg, s, queue);
    WaitStepIs(cfg, s, queue, t);
    var current := CoreAt(s.core, p.scope);
    AskAnswer(cfg, current, p);
    assert Overtaken(cfg, s) <==> Beaten(cfg, current, p);
    var reply := CoreReply(cfg, current, p.Ask());
    if reply.Accepted? {
      JudgedUnderway(s.store, queue, reply.current);
    }
  }

  lemma DropOnward(cfg: Config, s: State, queue: seq<Entry>, current: RuleSet, t: State)
    requires queue != [] && IsListing(queue, s.store.pending)
    requires t == RecoveryStep(cfg, s, RecoverDrop(queue, current), [])
    ensures Onward(RecoverDrop(queue, current), t)
  {
    FirstIsListed(queue, s.store.pending);
    ListingTail(queue, s.store.pending);
  }

  lemma RecordOnward(s: State, queue: seq<Entry>, call: Call)
    requires StoreInv(s) && CallInv(s, call) && queue != [] && FinishUnderway(s.store, queue, call)
    requires call.FinishGet? || call.FinishHead?
    ensures var (store, next) := FinishStep(s.store, call);
            Ahead(store, RecoverFinish(queue, call), RecoverFinish(queue, next))
  {
    CallHashes(s, call);
  }

  lemma HeadOnward(s: State, queue: seq<Entry>, call: Call)
    requires StoreInv(s) && CallInv(s, call) && queue != [] && FinishUnderway(s.store, queue, call)
    requires call.HeadGet? || call.HeadPut?
    ensures var (store, next) := FinishStep(s.store, call);
            Ahead(store, RecoverFinish(queue, call), RecoverFinish(queue, next))
  {
    if call.HeadGet? {
      PlanIsSound(s, call.scope, call.revision, call.hash);
    } else {
      PlannedPut(s, call.scope, call.revision, call.hash, call.expected);
    }
  }

  lemma ForgetOnward(s: State, queue: seq<Entry>, call: Call)
    requires queue != [] && FinishUnderway(s.store, queue, call) && call.FinishForget?
    ensures var (store, next) := FinishStep(s.store, call);
            Ahead(store, RecoverFinish(queue, call), RecoverFinish(queue, next))
  {
    FirstIsListed(queue, s.store.pending);
    ListingTail(queue, s.store.pending);
  }

  lemma CommitOnward(s: State, queue: seq<Entry>, call: Call)
    requires queue != [] && FinishUnderway(s.store, queue, call) && call.FinishCommit? && !call.plan.Clash?
    requires StoreInv(s) && CallInv(s, call)
    ensures var (store, next) := FinishStep(s.store, call);
            Ahead(store, RecoverFinish(queue, call), RecoverFinish(queue, next))
  {
    FirstIsListed(queue, s.store.pending);
    ListingTail(queue, s.store.pending);
    var (store, next) := FinishStep(s.store, call);
    assert store.pending == s.store.pending - {queue[0].id} && next.Returned?;
  }

  lemma FinishOnward(cfg: Config, s: State, queue: seq<Entry>, call: Call, t: State)
    requires StoreInv(s) && CallInv(s, call) && queue != [] && FinishUnderway(s.store, queue, call)
    requires t == RecoveryStep(cfg, s, RecoverFinish(queue, call), [])
    ensures Onward(RecoverFinish(queue, call), t)
  {
    if IsFinishing(call) {
      FinishStepIs(cfg, s, queue, call, t);
      FinishAhead(s, queue, call);
    } else {
      assert call.Returned?;
    }
  }

  lemma FinishAhead(s: State, queue: seq<Entry>, call: Call)
    requires StoreInv(s) && CallInv(s, call) && queue != [] && FinishUnderway(s.store, queue, call) && IsFinishing(call)
    ensures var (store, next) := FinishStep(s.store, call);
            Ahead(store, RecoverFinish(queue, call), RecoverFinish(queue, next))
  {
    if call.FinishForget? {
      ForgetOnward(s, queue, call);
    } else if call.FinishCommit? {
      CommitOnward(s, queue, call);
    } else if call.FinishGet? || call.FinishHead? {
      RecordOnward(s, queue, call);
    } else {
      HeadOnward(s, queue, call);
    }
  }

  /** Nothing is added to the pending records and none of them changes. */
  ghost predicate PendingWithin(s: State, t: State) {
    forall id :: id in t.store.pending ==> id in s.store.pending && t.store.pending[id] == s.store.pending[id]
  }

  /** A step of recovery goes on, unless it asks for a record whose place is taken: then it fails. */
  lemma RecoverOnward(cfg: Config, s: State, listing: seq<Entry>, t: State)
    requires Steady(cfg, s) && s.process.Recovering? && t == RecoveryStep(cfg, s, s.process.work, listing)
    requires s.process.work.RecoverList? ==> IsListing(listing, s.store.pending)
    ensures if Overtaken(cfg, s) then t.process == Down else Onward(s.process.work, t)
  {
    Parts(cfg, s);
    SoundParts(cfg, s);
    match s.process.work
    case RecoverList =>
    case RecoverRead(queue) => ReadOnward(cfg, s, queue, t);
    case RecoverWait(queue) => WaitOnward(cfg, s, queue, t);
    case RecoverDrop(queue, current) => DropOnward(cfg, s, queue, current, t);
    case RecoverFinish(queue, call) => FinishOnward(cfg, s, queue, call, t);
  }

  /** A finishing step removes at most the record it is about. */
  lemma FinishRemoves(store: Store, call: Call)
    requires IsFinishing(call)
    ensures var after := FinishStep(store, call).0;
            after.pending == store.pending
            || ((call.FinishForget? || call.FinishCommit?) && after.pending == store.pending - {call.id})
  {}

  lemma FinishWithin(cfg: Config, s: State, queue: seq<Entry>, call: Call, t: State)
    requires t == RecoveryStep(cfg, s, RecoverFinish(queue, call), [])
    ensures PendingWithin(s, t)
  {
    if queue != [] && IsFinishing(call) {
      FinishStepIs(cfg, s, queue, call, t);
      FinishRemoves(s.store, call);
    }
  }

  lemma RecoverWithin(cfg: Config, s: State, listing: seq<Entry>, t: State)
    requires s.process.Recovering? && t == RecoveryStep(cfg, s, s.process.work, listing)
    ensures PendingWithin(s, t) && t.orphans == s.orphans
  {
    match s.process.work
    case RecoverFinish(queue, call) => FinishWithin(cfg, s, queue, call, t);
    case _ =>
  }

  lemma SteadyEvent(cfg: Config, s: State, e: Event, t: State)
    requires Steady(cfg, s) && InRecovery(e) && Enabled(s, e) && t == Do(cfg, s, e)
    ensures Steady(cfg, t) && PendingWithin(s, t)
    ensures e.Recover? ==> if Overtaken(cfg, s) then t.process == Down else Onward(s.process.work, t)
  {
    EventKeeps(cfg, s, e);
    if e.Recover? {
      RecoverOnward(cfg, s, e.queue, t);
      RecoverWithin(cfg, s, e.queue, t);
    }
    ReadyAfter(cfg, s, t);
  }

  // ---- What a failed attempt takes ----

  /** Another request for the record's scope is installed, and it is not one for the same rules. */
  ghost predicate Overtakes(cfg: Config, s: State, e: Event, p: Pending) {
    && e.HandleOrphan? && e.m.id.scope == p.scope && Handle(cfg, s, e.m).core != s.core
    && !(e.m.target == p.target && cfg.hash(e.m.rules) == cfg.hash(p.rules))
  }

  ghost predicate OvertakenDuring(cfg: Config, s: State, late: seq<Event>, p: Pending)
    requires IsRun(cfg, s, late)
    decreases |late|
  {
    late != [] && (Overtakes(cfg, s, late[0], p) || OvertakenDuring(cfg, Do(cfg, s, late[0]), late[1..], p))
  }

  lemma OvertakerIsAnother(cfg: Config, s: State, e: Event, p: Pending)
    requires Inv(cfg, s) && Enabled(s, e) && Overtakes(cfg, s, e, p)
    requires p.ID() in s.store.pending && s.store.pending[p.ID()].value == p
    ensures e.m.id != p.ID()
  {
    Parts(cfg, s);
    SoundParts(cfg, s);
    assert Covered(s, e.m);
  }

  lemma BeatenStep(cfg: Config, s: State, e: Event, p: Pending)
    requires Inv(cfg, s) && IsLate(e) && Enabled(s, e)
    requires p.target == p.expected + 1 && p.expected <= CoreAt(s.core, p.scope).revision
    ensures Beaten(cfg, CoreAt(Do(cfg, s, e).core, p.scope), p) <==>
              Beaten(cfg, CoreAt(s.core, p.scope), p) || Overtakes(cfg, s, e, p)
  {}

  lemma {:induction false} BeatenRun(cfg: Config, s: State, late: seq<Event>, p: Pending)
    requires Inv(cfg, s) && Ready(cfg, s) && AllLate(late) && IsRun(cfg, s, late)
    requires p.target == p.expected + 1 && p.expected <= CoreAt(s.core, p.scope).revision
    ensures var t := After(cfg, s, late);
            && Inv(cfg, t) && Ready(cfg, t) && t.store == s.store && t.process == s.process
            && (Beaten(cfg, CoreAt(t.core, p.scope), p) <==>
                  Beaten(cfg, CoreAt(s.core, p.scope), p) || OvertakenDuring(cfg, s, late, p))
    decreases |late|
  {
    if late != [] {
      LateKeepsReady(cfg, s, late[0]);
      EventKeeps(cfg, s, late[0]);
      BeatenStep(cfg, s, late[0], p);
      BeatenRun(cfg, Do(cfg, s, late[0]), late[1..], p);
    }
  }

  /** Asking fails exactly if the record's place is taken. */
  lemma AskStep(cfg: Config, u: State, queue: seq<Entry>, p: Pending, t: State)
    requires queue != [] && queue[0].record.value == p && t == RecoveryStep(cfg, u, RecoverWait(queue), [])
    requires p.target == p.expected + 1 && p.expected <= CoreAt(u.core, p.scope).revision
    requires cfg.accepts(p.scope, p.rules)
    ensures t.process == Down <==> Beaten(cfg, CoreAt(u.core, p.scope), p)
  {
    WaitStepIs(cfg, u, queue, t);
    AskAnswer(cfg, CoreAt(u.core, p.scope), p);
  }

  lemma WaitedFor(cfg: Config, s: State, queue: seq<Entry>)
    requires Inv(cfg, s) && Ready(cfg, s) && s.process == Recovering(RecoverWait(queue))
    ensures queue != [] && queue[0].id in s.store.pending && s.store.pending[queue[0].id] == queue[0].record
    ensures var p := queue[0].record.value;
            && p.ID() == queue[0].id && p.target == p.expected + 1
            && p.expected <= CoreAt(s.core, p.scope).revision && cfg.accepts(p.scope, p.rules)
  {
    Parts(cfg, s);
    SoundParts(cfg, s);
    assert queue[0].record.value.ID() == queue[0].id;
    assert IsReady(cfg, s, queue[0].id);
  }

  /** Recovery has read Core's revision and found its first record next in line; then late
      requests arrive or get lost; then it asks. The attempt fails exactly if one of them was
      installed in the record's scope with other rules. */
  lemma AskFailsIffOvertaken(cfg: Config, s: State, queue: seq<Entry>, late: seq<Event>)
    requires Reachable(cfg, s) && Ready(cfg, s) && s.process == Recovering(RecoverWait(queue)) && queue != []
    requires CoreAt(s.core, queue[0].record.value.scope).revision == queue[0].record.value.expected
    requires AllLate(late) && IsRun(cfg, s, late)
    ensures var u := After(cfg, s, late);
            && Enabled(u, Recover([], 0))
            && (Do(cfg, u, Recover([], 0)).process == Down <==> OvertakenDuring(cfg, s, late, queue[0].record.value))
  {
    ReachableInv(cfg, s);
    WaitedFor(cfg, s, queue);
    var p := queue[0].record.value;
    BeatenRun(cfg, s, late, p);
    var u := After(cfg, s, late);
    WaitedFor(cfg, u, queue);
    AskStep(cfg, u, queue, p, Do(cfg, u, Recover([], 0)));
  }

  // ---- How often an attempt can fail ----

  predicate IsOwn(e: Event) { e.Recover? || e.Restart? }

  function OwnSteps(events: seq<Event>): nat {
    if events == [] then 0 else (if IsOwn(events[0]) then 1 else 0) + OwnSteps(events[1..])
  }

  function Crashes(events: seq<Event>): nat {
    if events == [] then 0 else (if events[0].Crash? then 1 else 0) + Crashes(events[1..])
  }

  ghost predicate Fails(cfg: Config, s: State, e: Event)
    requires Enabled(s, e)
  {
    e.Recover? && Do(cfg, s, e).process.Down?
  }

  /** Attempts that ended with the process giving up. */
  ghost function Failures(cfg: Config, s: State, events: seq<Event>): nat
    requires IsRun(cfg, s, events)
    decreases |events|
  {
    if events == [] then 0
    else (if Fails(cfg, s, events[0]) then 1 else 0) + Failures(cfg, Do(cfg, s, events[0]), events[1..])
  }

  /** One if the record about to be asked for may have been overtaken. */
  ghost function Credit(s: State): nat {
    if s.process.Recovering? && s.process.work.RecoverWait? && s.process.work.queue != [] then
      var p := s.process.work.queue[0].record.value;
      if CoreAt(s.core, p.scope).revision != p.expected then 1 else 0
    else 0
  }

  ghost function Trouble(s: State): nat { |s.orphans| + Credit(s) }

  lemma ReadCredit(cfg: Config, s: State, queue: seq<Entry>, t: State)
    requires t == RecoveryStep(cfg, s, RecoverRead(queue), [])
    ensures Credit(t) == 0
  {}

  lemma WaitCredit(cfg: Config, s: State, queue: seq<Entry>, t: State)
    requires s.process == Recovering(RecoverWait(queue)) && t == RecoveryStep(cfg, s, RecoverWait(queue), [])
    ensures Credit(t) == 0 && (Overtaken(cfg, s) ==> Credit(s) == 1)
  {
    if queue != [] {
      WaitStepIs(cfg, s, queue, t);
    }
  }

  lemma OtherCredit(cfg: Config, s: State, work: Recovery, listing: seq<Entry>, t: State)
    requires !work.RecoverRead? && !work.RecoverWait? && t == RecoveryStep(cfg, s, work, listing)
    ensures Credit(t) == 0
  {}

  lemma RecoverTrouble(cfg: Config, s: State, listing: seq<Entry>, t: State)
    requires Steady(cfg, s) && s.process.Recovering? && t == RecoveryStep(cfg, s, s.process.work, listing)
    requires s.process.work.RecoverList? ==> IsListing(listing, s.store.pending)
    ensures Trouble(t) + (if t.process.Down? then 1 else 0) <= Trouble(s)
  {
    RecoverOnward(cfg, s, listing, t);
    RecoverWithin(cfg, s, listing, t);
    match s.process.work
    case RecoverRead(queue) => ReadCredit(cfg, s, queue, t);
    case RecoverWait(queue) => WaitCredit(cfg, s, queue, t);
    case _ => OtherCredit(cfg, s, s.process.work, listing, t);
  }

  lemma CrashTrouble(cfg: Config, s: State)
    requires Steady(cfg, s)
    ensures |CrashOrphans(s)| <= 1 && Trouble(Do(cfg, s, Crash)) <= Trouble(s) + 1
  {
    if s.process.Serving? {
      assert Asked(s.process.calls) == {};
    }
  }

  lemma LateTrouble(cfg: Config, s: State, e: Event)
    requires IsLate(e) && Enabled(s, e)
    ensures Trouble(Do(cfg, s, e)) <= Trouble(s)
  {
    assert |Do(cfg, s, e).orphans| == |s.orphans| - 1;
  }

  lemma EventTrouble(cfg: Config, s: State, e: Event)
    requires Steady(cfg, s) && InRecovery(e) && Enabled(s, e)
    ensures (if Fails(cfg, s, e) then 1 else 0) + Trouble(Do(cfg, s, e)) <= Trouble(s) + if e.Crash? then 1 else 0
  {
    if e.Recover? {
      RecoverTrouble(cfg, s, e.queue, Do(cfg, s, e));
    } else if e.Crash? {
      CrashTrouble(cfg, s);
    } else if IsLate(e) {
      LateTrouble(cfg, s, e);
    }
  }

  lemma {:induction false} SteadyRun(cfg: Config, s: State, events: seq<Event>)
    requires Steady(cfg, s) && AllInRecovery(events) && IsRun(cfg, s, events)
    ensures Steady(cfg, After(cfg, s, events)) && PendingWithin(s, After(cfg, s, events))
    ensures Failures(cfg, s, events) + Trouble(After(cfg, s, events)) <= Trouble(s) + Crashes(events)
    decreases |events|
  {
    if events != [] {
      SteadyEvent(cfg, s, events[0], Do(cfg, s, events[0]));
      EventTrouble(cfg, s, events[0]);
      SteadyRun(cfg, Do(cfg, s, events[0]), events[1..]);
    }
  }

  /** However recovery, crashes, restarts and late or lost requests interleave, attempts fail at
      most once per request stranded at the start, and once more per crash. */
  lemma FailuresAreFew(cfg: Config, s: State, events: seq<Event>)
    requires Reachable(cfg, s) && s.process.Down? && Ready(cfg, s) && AllInRecovery(events) && IsRun(cfg, s, events)
    ensures Failures(cfg, s, events) <= |s.orphans| + Crashes(events)
  {
    ReachableInv(cfg, s);
    SteadyRun(cfg, s, events);
  }

  /** And whenever an attempt gets through, nothing is pending, and Core's current revision is in
      the history wherever it was installed on behalf of a request. */
  lemma RecoveredIsRecorded(cfg: Config, s: State, events: seq<Event>)
    requires Reachable(cfg, s) && s.process.Down? && Ready(cfg, s) && AllInRecovery(events) && IsRun(cfg, s, events)
    requires After(cfg, s, events).process.Serving?
    ensures var t := After(cfg, s, events);
            && t.process == Serving(map[]) && t.store.pending == map[]
            && forall scope :: scope in t.installer ==>
                 RevisionID(scope, CoreAt(t.core, scope).revision) in t.store.history
  {
    ReachableInv(cfg, s);
    SteadyRun(cfg, s, events);
    EndIsRecorded(cfg, s, events);
  }

  // ---- Recovery ends ----

  lemma {:induction false} ListingLength(queue: seq<Entry>, pending: map<PendingID, Versioned<Pending>>)
    requires IsListing(queue, pending)
    ensures |queue| == |pending|
    decreases |queue|
  {
    if queue == [] {
      EmptyListing(pending);
    } else {
      ListingTail(queue, pending);
      ListingLength(queue[1..], pending - {queue[0].id});
      FirstIsListed(queue, pending);
      assert pending.Keys == (pending - {queue[0].id}).Keys + {queue[0].id};
    }
  }

  lemma FewerPending(s: State, t: State)
    requires PendingWithin(s, t)
    ensures |t.store.pending| <= |s.store.pending|
  {
    Subset(t.store.pending.Keys, s.store.pending.Keys);
    assert |t.store.pending.Keys| == |t.store.pending| && |s.store.pending.Keys| == |s.store.pending|;
  }

  lemma {:induction false} Subset<T>(a: set<T>, b: set<T>)
    requires a <= b
    ensures |a| <= |b|
  {
    assert b == a + (b - a);
  }

  /** Steps that recovery still has before it if nothing gets in its way. */
  ghost function Left(s: State): nat {
    match s.process
    case Down => 3 + 8 * |s.store.pending|
    case Recovering(work) => if work.RecoverList? then 2 + 8 * |s.store.pending| else StepsLeft(work)
    case Serving(_) => 0
  }

  /** A whole attempt at n records. */
  function Attempt(n: nat): nat { 3 + 8 * n }

  ghost function Budget(s: State, n: nat): nat { Left(s) + Times(Trouble(s), Attempt(n)) }

  lemma OnwardLeft(work: Recovery, s: State, t: State)
    requires s.process == Recovering(work) && Onward(work, t)
    requires work.RecoverRead? || work.RecoverWait? || work.RecoverDrop? || work.RecoverFinish?
    ensures Left(t) < Left(s) || t.process.Serving?
  {}

  lemma ListedLeft(cfg: Config, s: State, listing: seq<Entry>, t: State)
    requires s.process == Recovering(RecoverList) && IsListing(listing, s.store.pending)
    requires t == RecoveryStep(cfg, s, RecoverList, listing)
    ensures Left(t) + 1 == Left(s)
  {
    ListingLength(listing, s.store.pending);
  }

  lemma UnderwayLeft(store: Store, work: Recovery)
    requires Underway(store, work) && !work.RecoverList?
    ensures StepsLeft(work) > 0
  {}

  lemma RecoverLeft(cfg: Config, s: State, listing: seq<Entry>, t: State, n: nat)
    requires Steady(cfg, s) && s.process.Recovering? && t == RecoveryStep(cfg, s, s.process.work, listing)
    requires s.process.work.RecoverList? ==> IsListing(listing, s.store.pending)
    requires |s.store.pending| <= n
    ensures Left(s) > 0 && (Left(t) < Left(s) || (t.process.Down? && Left(t) <= Attempt(n)))
  {
    RecoverOnward(cfg, s, listing, t);
    if s.process.work.RecoverList? {
      ListedLeft(cfg, s, listing, t);
    } else {
      UnderwayLeft(s.store, s.process.work);
      if t.process.Down? {
        RecoverWithin(cfg, s, listing, t);
        FewerPending(s, t);
      } else {
        OnwardLeft(s.process.work, s, t);
      }
    }
  }

  /** A step paid for out of what is left, or out of one unit of trouble. */
  lemma Paid(left: nat, trouble: nat, leftAfter: nat, troubleAfter: nat, k: nat)
    requires (1 + leftAfter <= left && troubleAfter <= trouble)
             || (leftAfter <= k && 0 < left && troubleAfter < trouble)
    ensures 1 + leftAfter + Times(troubleAfter, k) <= left + Times(trouble, k)
  {
    if troubleAfter < trouble {
      TimesGrows(troubleAfter, trouble - 1, k);
    }
  }

  lemma RecoverBudget(cfg: Config, s: State, listing: seq<Entry>, t: State, n: nat)
    requires Steady(cfg, s) && s.process.Recovering? && t == RecoveryStep(cfg, s, s.process.work, listing)
    requires s.process.work.RecoverList? ==> IsListing(listing, s.store.pending)
    requires |s.store.pending| <= n
    ensures 1 + Budget(t, n) <= Budget(s, n)
  {
    RecoverLeft(cfg, s, listing, t, n);
    RecoverTrouble(cfg, s, listing, t);
    Paid(Left(s), Trouble(s), Left(t), Trouble(t), Attempt(n));
  }

  lemma CrashBudget(cfg: Config, s: State, n: nat)
    requires Steady(cfg, s) && |s.store.pending| <= n
    ensures Budget(Do(cfg, s, Crash), n) <= Budget(s, n) + 2 * Attempt(n)
  {
    CrashTrouble(cfg, s);
    TimesGrows(Trouble(Do(cfg, s, Crash)), Trouble(s) + 1, Attempt(n));
  }

  lemma EventBudget(cfg: Config, s: State, e: Event, n: nat)
    requires Steady(cfg, s) && InRecovery(e) && Enabled(s, e) && |s.store.pending| <= n
    ensures (if IsOwn(e) then 1 else 0) + Budget(Do(cfg, s, e), n) <=
            Budget(s, n) + if e.Crash? then 2 * Attempt(n) else 0
  {
    if e.Recover? {
      RecoverBudget(cfg, s, e.queue, Do(cfg, s, e), n);
    } else if e.Crash? {
      CrashBudget(cfg, s, n);
    } else if IsLate(e) {
      LateBudget(cfg, s, e, n);
    } else {
      RestartBudget(cfg, s, n);
    }
  }

  lemma LateBudget(cfg: Config, s: State, e: Event, n: nat)
    requires IsLate(e) && Enabled(s, e)
    ensures Budget(Do(cfg, s, e), n) <= Budget(s, n)
  {
    LateTrouble(cfg, s, e);
    TimesGrows(Trouble(Do(cfg, s, e)), Trouble(s), Attempt(n));
  }

  lemma RestartBudget(cfg: Config, s: State, n: nat)
    requires Enabled(s, Restart)
    ensures 1 + Budget(Do(cfg, s, Restart), n) <= Budget(s, n)
  {
    assert Trouble(Do(cfg, s, Restart)) == Trouble(s);
  }

  lemma {:induction false} BudgetRun(cfg: Config, s: State, events: seq<Event>, n: nat)
    requires Steady(cfg, s) && AllInRecovery(events) && IsRun(cfg, s, events) && |s.store.pending| <= n
    ensures OwnSteps(events) + Budget(After(cfg, s, events), n) <= Budget(s, n) + Times(2 * Crashes(events), Attempt(n))
    decreases |events|
  {
    if events != [] {
      var e, t := events[0], Do(cfg, s, events[0]);
      SteadyEvent(cfg, s, e, t);
      FewerPending(s, t);
      EventBudget(cfg, s, e, n);
      BudgetRun(cfg, t, events[1..], n);
      CrashTimes(events, Attempt(n));
    }
  }

  lemma CrashTimes(events: seq<Event>, k: nat)
    requires events != []
    ensures Times(2 * Crashes(events), k) ==
              Times(2 * Crashes(events[1..]), k) + if events[0].Crash? then 2 * k else 0
  {
    var c := 2 * Crashes(events[1..]);
    assert Times(c + 2, k) == k + Times(c + 1, k) && Times(c + 1, k) == k + Times(c, k);
  }

  ghost predicate CanStep(s: State) { exists e :: IsOwn(e) && Enabled(s, e) }

  lemma LeftUntilServing(cfg: Config, s: State)
    requires Steady(cfg, s) && !s.process.Serving?
    ensures Left(s) > 0 && CanStep(s)
  {
    if s.process.Down? {
      assert IsOwn(Restart) && Enabled(s, Restart);
    } else {
      ListingExists(s.store.pending);
      var queue :| IsListing(queue, s.store.pending);
      var e := Recover(queue, 0);
      assert IsOwn(e) && Enabled(s, e);
      if !s.process.work.RecoverList? {
        UnderwayLeft(s.store, s.process.work);
      }
    }
  }

  lemma OpenUntilServing(cfg: Config, s: State, events: seq<Event>)
    requires Steady(cfg, s) && AllInRecovery(events) && IsRun(cfg, s, events)
    ensures var t := After(cfg, s, events); t.process.Serving? || (Left(t) > 0 && CanStep(t))
  {
    SteadyRun(cfg, s, events);
    if !After(cfg, s, events).process.Serving? {
      LeftUntilServing(cfg, After(cfg, s, events));
    }
  }

  /** An attempt is at most 3 + 8n steps; each stranded request can cost one more, each crash two. */
  function StepBound(orphans: nat, crashes: nat, pending: nat): nat { (1 + orphans + 2 * crashes) * (3 + 8 * pending) }

  lemma BoundIsSum(orphans: nat, crashes: nat, n: nat)
    ensures StepBound(orphans, crashes, n) ==
              Attempt(n) + Times(orphans, Attempt(n)) + Times(2 * crashes, Attempt(n))
  {
    TimesIsProduct(orphans, Attempt(n));
    TimesIsProduct(2 * crashes, Attempt(n));
    Distribute(orphans, 2 * crashes, Attempt(n));
  }

  lemma Distribute(a: nat, b: nat, k: nat)
    ensures (1 + a + b) * k == k + a * k + b * k
  {}

  lemma SpentWithin(own: nat, after: nat, orphans: nat, crashes: nat, n: nat)
    requires own + after <= Attempt(n) + Times(orphans, Attempt(n)) + Times(2 * crashes, Attempt(n))
    ensures own + after <= StepBound(orphans, crashes, n)
  {
    BoundIsSum(orphans, crashes, n);
  }

  lemma DownBudget(s: State, n: nat)
    requires s.process.Down? && n == |s.store.pending|
    ensures Budget(s, n) == Attempt(n) + Times(|s.orphans|, Attempt(n))
  {}

  lemma OwnStepsAreBounded(cfg: Config, s: State, events: seq<Event>, n: nat)
    requires Steady(cfg, s) && s.process.Down? && n == |s.store.pending| && AllInRecovery(events)
    requires IsRun(cfg, s, events)
    ensures OwnSteps(events) + Left(After(cfg, s, events)) <= StepBound(|s.orphans|, Crashes(events), n)
  {
    BudgetRun(cfg, s, events, n);
    DownBudget(s, n);
    SpentWithin(OwnSteps(events), Left(After(cfg, s, events)), |s.orphans|, Crashes(events), n);
  }

  lemma EndsWithin(cfg: Config, s: State, events: seq<Event>, t: State, bound: nat)
    requires Steady(cfg, s) && s.process.Down? && AllInRecovery(events) && IsRun(cfg, s, events)
    requires t == After(cfg, s, events) && bound == StepBound(|s.orphans|, Crashes(events), |s.store.pending|)
    ensures OwnSteps(events) <= bound && (t.process.Serving? || (OwnSteps(events) < bound && CanStep(t)))
  {
    OwnStepsAreBounded(cfg, s, events, |s.store.pending|);
    OpenUntilServing(cfg, s, events);
  }

  /** Recovery ends: its own steps are bounded however late requests and crashes interleave with
      them, and until it serves a step is open to it. */
  lemma RecoveryEnds(cfg: Config, s: State, events: seq<Event>)
    requires Reachable(cfg, s) && s.process.Down? && Ready(cfg, s) && AllInRecovery(events) && IsRun(cfg, s, events)
    ensures var bound, t := StepBound(|s.orphans|, Crashes(events), |s.store.pending|), After(cfg, s, events);
            OwnSteps(events) <= bound && (t.process.Serving? || (OwnSteps(events) < bound && CanStep(t)))
  {
    ReachableInv(cfg, s);
    EndsWithin(cfg, s, events, After(cfg, s, events), StepBound(|s.orphans|, Crashes(events), |s.store.pending|));
  }
}
