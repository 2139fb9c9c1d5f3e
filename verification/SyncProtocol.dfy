/** The two-party protocol between Core, which enforces sync rules, and control.barq,
    which remembers them. Every store operation and every Core request is one atomic step;
    calls interleave freely, responses get lost, and the process dies between any two steps. */
module SyncProtocol {
  import opened Results
  import opened Text
  import opened Keys
  import opened Table

  datatype Rule = Rule(objectType: string, read: string, write: string)

  datatype RuleSet = RuleSet(revision: nat, hash: string, rules: seq<Rule>)

  datatype Source = FromApply | FromRecovery

  datatype Revision = Revision(scope: Scope, revision: nat, hash: string, rules: seq<Rule>, actor: string,
                               requestID: string, source: Source, createdAt: nat)

  datatype Head = Head(scope: Scope, revision: nat, hash: string)

  /** The intent record written before Core is asked to change anything. */
  datatype Pending = Pending(scope: Scope, expected: nat, target: nat, rules: seq<Rule>, actor: string,
                             requestID: string, createdAt: nat)
  {
    function ID(): PendingID { PendingID(scope, requestID) }

    function Ask(): Message { Message(ID(), expected, target, rules) }
  }

  datatype PendingID = PendingID(scope: Scope, requestID: string)

  datatype RevisionID = RevisionID(scope: Scope, revision: nat)

  /** The three collections of the sync-rule service in control.barq. */
  datatype Store = Store(history: map<RevisionID, Versioned<Revision>>, heads: map<Scope, Versioned<Head>>,
                         pending: map<PendingID, Versioned<Pending>>)

  // ---- Core ----

  /** Core's hash of a rule list, and the rule lists it is willing to install. */
  datatype Config = Config(hash: seq<Rule> -> string, accepts: (Scope, seq<Rule>) -> bool)

  /** A request to Core to install rules. */
  datatype Message = Message(id: PendingID, expected: nat, target: nat, rules: seq<Rule>)

  datatype Reply = Accepted(current: RuleSet) | Refused(code: ErrorCode)

  const NO_RULES: RuleSet := RuleSet(0, "bootstrap", [])

  function CoreAt(core: map<Scope, RuleSet>, scope: Scope): RuleSet {
    if scope in core then core[scope] else NO_RULES
  }

  /** Same target and hash succeeds again; a stale expected revision or invalid rules are refused. */
  function CoreReply(cfg: Config, current: RuleSet, m: Message): Reply {
    if m.target == current.revision && cfg.hash(m.rules) == current.hash then Accepted(current)
    else if m.expected != current.revision || m.target != current.revision + 1 then Refused(Conflict)
    else if !cfg.accepts(m.id.scope, m.rules) then Refused(Invalid)
    else Accepted(RuleSet(m.target, cfg.hash(m.rules), m.rules))
  }

  /** Errors after which Core certainly did not and will not act on the request. */
  predicate IsFinal(code: ErrorCode) {
    code in {Invalid, NotFound, Conflict, Precondition, Unauthorized, Forbidden, ResourceExceeded}
  }

  /** All but two: a service out of reach, and one that failed in the middle. */
  lemma OpenCodes(code: ErrorCode)
    ensures !IsFinal(code) <==> code.Unavailable? || code.Internal?
  {}

  // ---- Comparing rule lists up to order ----

  function InsertRule(sorted: seq<Rule>, rule: Rule): seq<Rule> {
    if sorted == [] || Less(rule.objectType, sorted[0].objectType) then [rule] + sorted
    else [sorted[0]] + InsertRule(sorted[1..], rule)
  }

  function SortRules(rules: seq<Rule>): seq<Rule> {
    if rules == [] then [] else InsertRule(SortRules(rules[..|rules| - 1]), rules[|rules| - 1])
  }

  predicate SameRules(left: seq<Rule>, right: seq<Rule>) {
    |left| == |right| && SortRules(left) == SortRules(right)
  }

  // ---- Atomic store operations ----

  function RevisionOf(r: Revision): RevisionID { RevisionID(r.scope, r.revision) }

  /** Put a revision that must not exist yet. */
  function AddRevision(store: Store, r: Revision): Result<Store> {
    if RevisionOf(r) in store.history then Err(Conflict)
    else Ok(store.(history := store.history[RevisionOf(r) := Versioned(r, 1)]))
  }

  function AddPending(store: Store, p: Pending): Result<Store> {
    if p.ID() in store.pending then Err(Conflict)
    else Ok(store.(pending := store.pending[p.ID() := Versioned(p, 1)]))
  }

  function DropPending(store: Store, id: PendingID, version: nat): Result<Store> {
    if id !in store.pending then Err(NotFound)
    else if store.pending[id].version != version then Err(Conflict)
    else Ok(store.(pending := store.pending - {id}))
  }

  /** Compare-and-swap of a scope's head; expected 0 means that there is none. */
  function PutHead(store: Store, head: Head, expected: nat): Result<Store> {
    if expected == 0 && head.scope in store.heads then Err(Conflict)
    else if expected != 0 && (head.scope !in store.heads || store.heads[head.scope].version != expected) then
      Err(Conflict)
    else Ok(store.(heads := store.heads[head.scope := Versioned(head, VersionOf(store.heads, head.scope) + 1)]))
  }

  /** Record the revision, forget the intent and, if wanted, move the head, in one transaction. */
  function FinishTransaction(store: Store, r: Revision, id: PendingID, version: nat, writeHead: bool,
                             headVersion: nat): Result<Store> {
    var added := AddRevision(store, r);
    var dropped := DropPending(store, id, version);
    var moved := PutHead(store, Head(r.scope, r.revision, r.hash), headVersion);
    if added.Err? then added
    else if dropped.Err? then dropped
    else if writeHead && moved.Err? then moved
    else Ok(Store(added.value.history, if writeHead then moved.value.heads else store.heads, dropped.value.pending))
  }

  /** What a writer that wants the head at (revision, hash) does about the head it finds. */
  datatype HeadPlan = Leave | Write(expected: nat) | Clash

  function PlanHead(store: Store, scope: Scope, revision: nat, hash: string): HeadPlan {
    if scope !in store.heads then Write(0)
    else
      var stored := store.heads[scope];
      if stored.value.revision > revision then Leave
      else if stored.value.revision == revision then if stored.value.hash == hash then Leave else Clash
      else Write(stored.version)
  }

  // ---- Calls in progress ----

  /** Where a call stands, named after the operation it will do next. */
  datatype Call =
    | ApplyPut(p: Pending)
    | ApplyGet(p: Pending)
    | ApplySend(p: Pending, version: nat)
    | ApplyWait(p: Pending, version: nat)
    | ApplyForget(p: Pending, version: nat, code: ErrorCode)
    | FinishGet(r: Revision, id: PendingID, version: nat)
    | FinishForget(r: Revision, id: PendingID, version: nat)
    | FinishHead(r: Revision, id: PendingID, version: nat)
    | FinishCommit(r: Revision, id: PendingID, version: nat, plan: HeadPlan)
    | HeadGet(scope: Scope, revision: nat, hash: string)
    | HeadPut(scope: Scope, revision: nat, hash: string, expected: nat)
    | CurrentRead(scope: Scope, requestID: string)
    | CurrentGet(scope: Scope, current: RuleSet, requestID: string)
    | CurrentPut(scope: Scope, current: RuleSet, requestID: string)
    | Returned(scope: Scope, revision: nat)
    | ReturnedUnruled
    | Failed(code: ErrorCode)

  /** The pending record a call is about. */
  function RecordOf(call: Call): Option<PendingID> {
    match call
    case ApplyPut(p) => Some(p.ID())
    case ApplyGet(p) => Some(p.ID())
    case ApplySend(p, _) => Some(p.ID())
    case ApplyWait(p, _) => Some(p.ID())
    case ApplyForget(p, _, _) => Some(p.ID())
    case FinishGet(_, id, _) => Some(id)
    case FinishForget(_, id, _) => Some(id)
    case FinishHead(_, id, _) => Some(id)
    case FinishCommit(_, id, _, _) => Some(id)
    case _ => None
  }

  /** The call wants to write its intent, and may find another one in its place. */
  predicate IsTentative(call: Call) { call.ApplyPut? || call.ApplyGet? }

  /** The call's intent is on record. */
  predicate IsOwner(call: Call) { RecordOf(call).Some? && !IsTentative(call) }

  datatype Entry = Entry(id: PendingID, record: Versioned<Pending>)

  /** Startup recovery over the pending records it listed. */
  datatype Recovery =
    | RecoverList
    | RecoverRead(queue: seq<Entry>)
    | RecoverWait(queue: seq<Entry>)
    | RecoverDrop(queue: seq<Entry>, current: RuleSet)
    | RecoverFinish(queue: seq<Entry>, call: Call)

  /** Recovery runs before any call is served. */
  datatype Process = Down | Recovering(work: Recovery) | Serving(calls: map<nat, Call>)

  /** timeline and installer record what Core did; no code reads them. */
  datatype State = State(core: map<Scope, RuleSet>, store: Store, orphans: multiset<Message>, process: Process,
                         ghost timeline: map<RevisionID, RuleSet>, ghost installer: map<Scope, PendingID>)

  datatype Event =
    | BeginApply(c: nat, p: Pending)
    | BeginCurrent(c: nat, scope: Scope, requestID: string)
    | Advance(c: nat, now: nat)
    | Abort(c: nat)
    | Crash
    | Restart
    | Recover(queue: seq<Entry>, now: nat)
    | HandleOrphan(m: Message)
    | LoseOrphan(m: Message)

  /** Core handles one request, at whatever moment it arrives. */
  ghost function Handle(cfg: Config, s: State, m: Message): State {
    var scope := m.id.scope;
    var current := CoreAt(s.core, scope);
    var reply := CoreReply(cfg, current, m);
    if reply.Refused? || reply.current == current then s
    else s.(core := s.core[scope := reply.current],
            timeline := s.timeline[RevisionID(scope, reply.current.revision) := reply.current],
            installer := s.installer[scope := m.id])
  }

  /** One step of the finishing stages, shared by Apply, Current and Reconcile. */
  function FinishStep(store: Store, call: Call): (Store, Call)
    requires call.FinishGet? || call.FinishForget? || call.FinishHead? || call.FinishCommit? || call.HeadGet?
             || call.HeadPut?
  {
    match call
    case FinishGet(r, id, version) =>
      if RevisionOf(r) !in store.history then (store, FinishHead(r, id, version))
      else if store.history[RevisionOf(r)].value.hash != r.hash then (store, Failed(Conflict))
      else (store, FinishForget(r, id, version))
    case FinishForget(r, id, version) =>
      var dropped := DropPending(store, id, version);
      (if dropped.Ok? then dropped.value else store, HeadGet(r.scope, r.revision, r.hash))
    case FinishHead(r, id, version) =>
      var plan := PlanHead(store, r.scope, r.revision, r.hash);
      (store, if plan.Clash? then Failed(Conflict) else FinishCommit(r, id, version, plan))
    case FinishCommit(r, id, version, plan) =>
      var done := FinishTransaction(store, r, id, version, plan.Write?, if plan.Write? then plan.expected else 0);
      if done.Ok? then (done.value, Returned(r.scope, r.revision)) else (store, Failed(done.code))
    case HeadGet(scope, revision, hash) =>
      var plan := PlanHead(store, scope, revision, hash);
      (store, match plan
              case Leave => Returned(scope, revision)
              case Clash => Failed(Conflict)
              case Write(expected) => HeadPut(scope, revision, hash, expected))
    case HeadPut(scope, revision, hash, expected) =>
      var done := PutHead(store, Head(scope, revision, hash), expected);
      if done.Ok? then (done.value, Returned(scope, revision)) else (store, Failed(done.code))
  }

  predicate IsFinishing(call: Call) {
    call.FinishGet? || call.FinishForget? || call.FinishHead? || call.FinishCommit? || call.HeadGet? || call.HeadPut?
  }

  predicate IsOver(call: Call) { call.Returned? || call.ReturnedUnruled? || call.Failed? }

  /** The next atomic operation of one call. */
  ghost function CallStep(cfg: Config, s: State, call: Call, now: nat): (State, Call)
    requires !IsOver(call)
  {
    if IsFinishing(call) then
      var (store, next) := FinishStep(s.store, call);
      (s.(store := store), next)
    else match call
      case ApplyPut(p) =>
        var put := AddPending(s.store, p);
        if put.Ok? then (s.(store := put.value), ApplySend(p, 1)) else (s, ApplyGet(p))
      case ApplyGet(p) =>
        if p.ID() !in s.store.pending then (s, Failed(NotFound))
        else if s.store.pending[p.ID()].value != p then (s, Failed(Conflict))
        else (s, ApplySend(p, s.store.pending[p.ID()].version))
      case ApplySend(p, version) =>
        (s, ApplyWait(p, version))
      case ApplyWait(p, version) =>
        var reply := CoreReply(cfg, CoreAt(s.core, p.scope), p.Ask());
        (Handle(cfg, s, p.Ask()),
         match reply
         case Refused(code) => if IsFinal(code) then ApplyForget(p, version, code) else Failed(code)
         case Accepted(current) =>
           FinishGet(Revision(p.scope, current.revision, current.hash, current.rules, p.actor, p.requestID, FromApply,
                              now), p.ID(), version))
      case ApplyForget(p, version, code) =>
        var dropped := DropPending(s.store, p.ID(), version);
        (if dropped.Ok? then s.(store := dropped.value) else s, Failed(code))
      case CurrentRead(scope, requestID) =>
        var current := CoreAt(s.core, scope);
        (s, if current.revision > 0 then CurrentGet(scope, current, requestID) else ReturnedUnruled)
      case CurrentGet(scope, current, requestID) =>
        var id := RevisionID(scope, current.revision);
        (s, if id !in s.store.history then CurrentPut(scope, current, requestID)
            else if s.store.history[id].value.hash != current.hash then Failed(Conflict)
            else HeadGet(scope, current.revision, current.hash))
      case CurrentPut(scope, current, requestID) =>
        var added := AddRevision(s.store, Revision(scope, current.revision, current.hash, current.rules, "", requestID,
                                                   FromRecovery, now));
        (if added.Ok? then s.(store := added.value) else s, HeadGet(scope, current.revision, current.hash))
  }

  /** What recovery does about one pending record once it knows Core's current rules. */
  function Judge(queue: seq<Entry>, current: RuleSet): Option<Recovery>
    requires queue != []
  {
    var p := queue[0].record.value;
    if current.revision >= p.target && (current.revision != p.target || !SameRules(current.rules, p.rules)) then
      Some(RecoverDrop(queue, current))
    else if current.revision != p.target || !SameRules(current.rules, p.rules) then None
    else
      Some(RecoverFinish(queue, FinishGet(Revision(p.scope, current.revision, current.hash, current.rules, p.actor,
                                                   p.requestID, FromRecovery, p.createdAt),
                                          queue[0].id, queue[0].record.version)))
  }

  ghost predicate ListsOnly(queue: seq<Entry>, pending: map<PendingID, Versioned<Pending>>) {
    forall i :: 0 <= i < |queue| ==> queue[i].id in pending && pending[queue[i].id] == queue[i].record
  }

  ghost predicate ListsAll(queue: seq<Entry>, pending: map<PendingID, Versioned<Pending>>) {
    forall id :: id in pending ==> exists i :: 0 <= i < |queue| && queue[i].id == id
  }

  ghost predicate InKeyOrder(queue: seq<Entry>) {
    forall i, j :: 0 <= i < j < |queue| ==>
      Less(PendingKey(queue[i].id.scope, queue[i].id.requestID), PendingKey(queue[j].id.scope, queue[j].id.requestID))
  }

  datatype ListingPart = Only | All | Ordered

  ghost predicate Lists(queue: seq<Entry>, pending: map<PendingID, Versioned<Pending>>, part: ListingPart) {
    match part
    case Only => ListsOnly(queue, pending)
    case All => ListsAll(queue, pending)
    case Ordered => InKeyOrder(queue)
  }

  /** A listing of the pending records: each once, in key order. */
  ghost predicate IsListing(queue: seq<Entry>, pending: map<PendingID, Versioned<Pending>>) {
    forall part :: Lists(queue, pending, part)
  }

  lemma ListingParts(queue: seq<Entry>, pending: map<PendingID, Versioned<Pending>>)
    requires IsListing(queue, pending)
    ensures ListsOnly(queue, pending) && ListsAll(queue, pending) && InKeyOrder(queue)
  {
    assert Lists(queue, pending, Only) && Lists(queue, pending, All) && Lists(queue, pending, Ordered);
  }

  function Proceed(next: Option<Recovery>): Process {
    if next.Some? then Recovering(next.value) else Down
  }

  /** The next atomic operation of startup recovery. A failure ends the process. */
  ghost function RecoveryStep(cfg: Config, s: State, work: Recovery, listing: seq<Entry>): State {
    match work
    case RecoverList => s.(process := Recovering(RecoverRead(listing)))
    case RecoverRead(queue) =>
      if queue == [] then s.(process := Serving(map[]))
      else
        var current := CoreAt(s.core, queue[0].record.value.scope);
        if current.revision == queue[0].record.value.expected then s.(process := Recovering(RecoverWait(queue)))
        else s.(process := Proceed(Judge(queue, current)))
    case RecoverWait(queue) =>
      if queue == [] then s.(process := Down)
      else
        var m := queue[0].record.value.Ask();
        var reply := CoreReply(cfg, CoreAt(s.core, m.id.scope), m);
        Handle(cfg, s, m).(process := if reply.Accepted? then Proceed(Judge(queue, reply.current)) else Down)
    case RecoverDrop(queue, _) =>
      if queue == [] then s.(process := Down)
      else
        var dropped := DropPending(s.store, queue[0].id, queue[0].record.version);
        if dropped.Err? && dropped.code != NotFound then s.(process := Down)
        else s.(store := if dropped.Ok? then dropped.value else s.store, process := Recovering(RecoverRead(queue[1..])))
    case RecoverFinish(queue, call) =>
      if queue == [] || call.Failed? then s.(process := Down)
      else if call.Returned? then s.(process := Recovering(RecoverRead(queue[1..])))
      else if !IsFinishing(call) then s.(process := Down)
      else
        var (store, next) := FinishStep(s.store, call);
        s.(store := store, process := Recovering(RecoverFinish(queue, next)))
  }

  /** Requests already sent that a vanishing call leaves behind on the way to Core. */
  ghost function Stranded(call: Call): multiset<Message> {
    if call.ApplyWait? then multiset{call.p.Ask()} else multiset{}
  }

  /** A request that Core will not act on any more. */
  ghost predicate Stale(s: State, m: Message) { m.target <= CoreAt(s.core, m.id.scope).revision }

  /** The intent on record under the request's ID is this one, creation time and all. */
  ghost predicate IsOnRecord(s: State, p: Pending) { p.ID() in s.store.pending && s.store.pending[p.ID()].value == p }

  /** No call is at work on the record, and no request under its ID can still move Core. */
  ghost predicate Unowned(s: State, calls: map<nat, Call>, id: PendingID) {
    && (forall c :: c in calls && IsOwner(calls[c]) ==> RecordOf(calls[c]) != Some(id))
    && (forall m :: m in s.orphans && m.id == id ==> Stale(s, m))
  }

  /** No other Apply with the very same intent, down to its creation time, is under way. Any number
      of Applies with other intents may share the request ID, and so may requests still on their
      way to Core. */
  ghost predicate NotInFlight(s: State, calls: map<nat, Call>, p: Pending) {
    && (forall c :: c in calls && IsTentative(calls[c]) ==> calls[c].p != p)
    && (IsOnRecord(s, p) ==> Unowned(s, calls, p.ID()))
  }

  ghost predicate Enabled(s: State, e: Event) {
    match e
    case BeginApply(c, p) =>
      s.process.Serving? && c !in s.process.calls && p.requestID != "" && p.target == p.expected + 1
      && NotInFlight(s, s.process.calls, p)
    case BeginCurrent(c, _, _) => s.process.Serving? && c !in s.process.calls
    case Advance(c, _) => s.process.Serving? && c in s.process.calls && !IsOver(s.process.calls[c])
    case Abort(c) => s.process.Serving? && c in s.process.calls
    case Crash => true
    case Restart => s.process.Down?
    case Recover(queue, _) =>
      s.process.Recovering? && (s.process.work.RecoverList? ==> IsListing(queue, s.store.pending))
    case HandleOrphan(m) => m in s.orphans
    case LoseOrphan(m) => m in s.orphans
  }

  /** The requests of the calls that wait for Core's answer. */
  ghost function Asked(calls: map<nat, Call>): set<Message> {
    set c | c in calls && calls[c].ApplyWait? :: calls[c].p.Ask()
  }

  /** A crash strands at most the requests of waiting calls; which of them still reach Core is open. */
  ghost function CrashOrphans(s: State): multiset<Message> {
    match s.process
    case Down => multiset{}
    case Recovering(RecoverWait(queue)) => if queue == [] then multiset{} else multiset{queue[0].record.value.Ask()}
    case Recovering(_) => multiset{}
    case Serving(calls) => multiset(Asked(calls))
  }

  ghost function Do(cfg: Config, s: State, e: Event): State
    requires Enabled(s, e)
  {
    match e
    case BeginApply(c, p) => s.(process := Serving(s.process.calls[c := ApplyPut(p)]))
    case BeginCurrent(c, scope, requestID) =>
      s.(process := Serving(s.process.calls[c := CurrentRead(scope, requestID)]))
    case Advance(c, now) =>
      var (after, next) := CallStep(cfg, s, s.process.calls[c], now);
      after.(process := Serving(s.process.calls[c := next]))
    case Abort(c) =>
      s.(process := Serving(s.process.calls - {c}), orphans := s.orphans + Stranded(s.process.calls[c]))
    case Crash => s.(process := Down, orphans := s.orphans + CrashOrphans(s))
    case Restart => s.(process := Recovering(RecoverList))
    case Recover(queue, _) => RecoveryStep(cfg, s, s.process.work, queue)
    case HandleOrphan(m) => Handle(cfg, s, m).(orphans := s.orphans - multiset{m})
    case LoseOrphan(m) => s.(orphans := s.orphans - multiset{m})
  }

  /** An empty store and a Core that already runs whatever rules it likes. */
  ghost predicate Init(s: State) {
    && s.store == Store(map[], map[], map[])
    && s.orphans == multiset{} && s.process == Down && s.installer == map[]
    && (forall scope :: scope in s.core && s.core[scope].revision > 0 ==>
          RevisionID(scope, s.core[scope].revision) in s.timeline
          && s.timeline[RevisionID(scope, s.core[scope].revision)] == s.core[scope])
    && (forall id :: id in s.timeline ==> id.scope in s.core && s.core[id.scope] == s.timeline[id]
                                          && id.revision == s.core[id.scope].revision > 0)
  }

  /** Every event of a run is enabled where it happens. */
  ghost predicate IsRun(cfg: Config, s: State, events: seq<Event>)
    decreases |events|
  {
    events == [] || (Enabled(s, events[0]) && IsRun(cfg, Do(cfg, s, events[0]), events[1..]))
  }

  ghost function After(cfg: Config, s: State, events: seq<Event>): State
    requires IsRun(cfg, s, events)
    decreases |events|
  {
    if events == [] then s else After(cfg, Do(cfg, s, events[0]), events[1..])
  }
}
