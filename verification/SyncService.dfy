/** The sync-rule service as the server runs it: straight-line code over Core and the store,
    proved to take exactly the protocol's steps when nothing interferes. */
module SyncService {
  import opened Results
  import opened Keys
  import opened Table
  import opened SyncProtocol
  import opened SyncRecovery
  import opened SyncRules
  import opened SyncAuthors
  import Sorting
  import Text

  // ---- The protocol's steps, run to the end ----

  function Rank(call: Call): nat {
    match call
    case ApplyPut(_) => 11
    case ApplyGet(_) => 10
    case ApplySend(_, _) => 9
    case ApplyWait(_, _) => 8
    case ApplyForget(_, _, _) => 7
    case CurrentRead(_, _) => 7
    case FinishGet(_, _, _) => 6
    case CurrentGet(_, _, _) => 6
    case FinishHead(_, _, _) => 5
    case FinishForget(_, _, _) => 5
    case CurrentPut(_, _, _) => 5
    case HeadGet(_, _, _) => 4
    case FinishCommit(_, _, _, _) => 3
    case HeadPut(_, _, _, _) => 3
    case _ => 0
  }

  function RunFinish(store: Store, call: Call): (Store, Call)
    decreases Rank(call)
  {
    if !IsFinishing(call) then (store, call)
    else
      var (after, next) := FinishStep(store, call);
      RunFinish(after, next)
  }

  ghost function RunCall(cfg: Config, s: State, call: Call, now: nat): (State, Call)
    decreases Rank(call)
  {
    if IsOver(call) then (s, call)
    else
      var (after, next) := CallStep(cfg, s, call, now);
      RunCall(cfg, after, next, now)
  }

  lemma StepsGoDown(cfg: Config, s: State, work: Recovery)
    requires !work.RecoverList?
    ensures var t := RecoveryStep(cfg, s, work, []);
            t.process.Recovering? ==> !t.process.work.RecoverList? && StepsLeft(t.process.work) < StepsLeft(work)
  {
    match work
    case RecoverRead(queue) =>
      if queue != [] {
        JudgeGoesDown(queue, CoreAt(s.core, queue[0].record.value.scope));
      }
    case RecoverWait(queue) =>
      if queue != [] {
        var m := queue[0].record.value.Ask();
        var reply := CoreReply(cfg, CoreAt(s.core, m.id.scope), m);
        if reply.Accepted? {
          JudgeGoesDown(queue, reply.current);
        }
      }
    case RecoverDrop(queue, _) =>
    case RecoverFinish(queue, call) =>
      if queue != [] && IsFinishing(call) {
        FinishGoesDown(s.store, queue, call);
      }
  }

  lemma JudgeGoesDown(queue: seq<Entry>, current: RuleSet)
    requires queue != []
    ensures var next := Judge(queue, current);
            next.Some? ==> !next.value.RecoverList? && StepsLeft(next.value) < 8 * |queue|
  {}

  lemma FinishGoesDown(store: Store, queue: seq<Entry>, call: Call)
    requires queue != [] && IsFinishing(call)
    ensures StepsLeft(RecoverFinish(queue, FinishStep(store, call).1)) < StepsLeft(RecoverFinish(queue, call))
  {}

  ghost function RunRecovery(cfg: Config, s: State): State
    requires s.process.Recovering? ==> !s.process.work.RecoverList?
    decreases if s.process.Recovering? then 1 + StepsLeft(s.process.work) else 0
  {
    if !s.process.Recovering? then s
    else
      StepsGoDown(cfg, s, s.process.work);
      RunRecovery(cfg, RecoveryStep(cfg, s, s.process.work, []))
  }

  lemma {:induction false} FinishWithinRecovery(cfg: Config, s: State, queue: seq<Entry>, call: Call)
    requires queue != [] && (IsFinishing(call) || call.Returned? || call.Failed?)
    requires s.process == Recovering(RecoverFinish(queue, call))
    ensures var (store, last) := RunFinish(s.store, call);
            RunRecovery(cfg, s) ==
            RunRecovery(cfg, s.(store := store, process := Recovering(RecoverFinish(queue, last))))
            && (last.Returned? || last.Failed?)
    decreases Rank(call)
  {
    if IsFinishing(call) {
      var (after, next) := FinishStep(s.store, call);
      var t := s.(store := after, process := Recovering(RecoverFinish(queue, next)));
      FinishStepIs(cfg, s, queue, call, t);
      FinishWithinRecovery(cfg, t, queue, next);
    } else {
      assert s.(store := s.store, process := Recovering(RecoverFinish(queue, call))) == s;
    }
  }

  // ---- The finishing stages in one piece ----

  /** How a call ends that depends on one last store operation. */
  function Ended(store: Store, done: Result<Store>, scope: Scope, revision: nat): (Store, Call) {
    if done.Ok? then (done.value, Returned(scope, revision)) else (store, Failed(done.code))
  }

  lemma RunHeadPut(store: Store, scope: Scope, revision: nat, hash: string, expected: nat)
    ensures RunFinish(store, HeadPut(scope, revision, hash, expected)) ==
            Ended(store, PutHead(store, Head(scope, revision, hash), expected), scope, revision)
  {}

  lemma RunHeadGet(store: Store, scope: Scope, revision: nat, hash: string)
    ensures var plan := PlanHead(store, scope, revision, hash);
            RunFinish(store, HeadGet(scope, revision, hash)) ==
            if plan.Leave? then (store, Returned(scope, revision))
            else if plan.Clash? then (store, Failed(Conflict))
            else RunFinish(store, HeadPut(scope, revision, hash, plan.expected))
  {}

  lemma RunForget(store: Store, r: Revision, id: PendingID, version: nat)
    requires RevisionOf(r) in store.history
    ensures var dropped := DropPending(store, id, version);
            RunFinish(store, FinishGet(r, id, version)) ==
            if store.history[RevisionOf(r)].value.hash != r.hash then (store, Failed(Conflict))
            else RunFinish(if dropped.Ok? then dropped.value else store, HeadGet(r.scope, r.revision, r.hash))
  {
    if store.history[RevisionOf(r)].value.hash == r.hash {
      assert RunFinish(store, FinishGet(r, id, version)) == RunFinish(store, FinishForget(r, id, version));
    }
  }

  lemma RunTransaction(store: Store, r: Revision, id: PendingID, version: nat, plan: HeadPlan)
    ensures RunFinish(store, FinishCommit(r, id, version, plan)) ==
            Ended(store, FinishTransaction(store, r, id, version, plan.Write?, if plan.Write? then plan.expected
                                           else 0),
                  r.scope, r.revision)
  {
    var (after, next) := FinishStep(store, FinishCommit(r, id, version, plan));
    assert RunFinish(after, next) == (after, next);
  }

  lemma HeadVersionIsIdle(store: Store, r: Revision, id: PendingID, version: nat, headVersion: nat)
    ensures FinishTransaction(store, r, id, version, false, headVersion) ==
            FinishTransaction(store, r, id, version, false, 0)
  {}

  lemma RunCommit(store: Store, r: Revision, id: PendingID, version: nat, writeHead: bool, headVersion: nat)
    requires RevisionOf(r) !in store.history
    requires var plan := PlanHead(store, r.scope, r.revision, r.hash);
             !plan.Clash? && writeHead == plan.Write? && (plan.Write? ==> headVersion == plan.expected)
    ensures RunFinish(store, FinishGet(r, id, version)) ==
            Ended(store, FinishTransaction(store, r, id, version, writeHead, headVersion), r.scope, r.revision)
  {
    var plan := PlanHead(store, r.scope, r.revision, r.hash);
    assert RunFinish(store, FinishGet(r, id, version)) == RunFinish(store, FinishHead(r, id, version));
    assert RunFinish(store, FinishHead(r, id, version)) == RunFinish(store, FinishCommit(r, id, version, plan));
    RunTransaction(store, r, id, version, plan);
    if !writeHead {
      HeadVersionIsIdle(store, r, id, version, headVersion);
    }
  }

  lemma RunClash(store: Store, r: Revision, id: PendingID, version: nat)
    requires RevisionOf(r) !in store.history && PlanHead(store, r.scope, r.revision, r.hash).Clash?
    ensures RunFinish(store, FinishGet(r, id, version)) == (store, Failed(Conflict))
  {
    assert RunFinish(store, FinishGet(r, id, version)) == RunFinish(store, FinishHead(r, id, version));
    assert FinishStep(store, FinishHead(r, id, version)) == (store, Failed(Conflict));
    assert RunFinish(store, Failed(Conflict)) == (store, Failed(Conflict));
  }

  /** What a caller of Apply asks for. */
  datatype ApplyInput = ApplyInput(expected: nat, rules: seq<Rule>, requestID: string, actor: string)

  function IntentOf(scope: Scope, input: ApplyInput, now: nat): Pending {
    Pending(scope, input.expected, input.expected + 1, input.rules, input.actor, input.requestID, now)
  }

  /** How Core's answer to one request reaches the service, if at all. */
  datatype Line = Delivered | NotReached | AnswerLost

  function AnswerOf(reply: Reply): Result<RuleSet> {
    if reply.Accepted? then Ok(reply.current) else Err(reply.code)
  }

  /** Whether the service learns Core's rules, and its answer if the record has to be asked for. */
  predicate Answered(core: map<Scope, RuleSet>, p: Pending, readable: bool, line: Line) {
    readable && (CoreAt(core, p.scope).revision == p.expected ==> line.Delivered?)
  }

  /** Recovery came as far as its i-th record, in state here; Core may still have handled that record's request. */
  ghost predicate StoppedAt(cfg: Config, start: State, queue: seq<Entry>, i: nat, here: State, t: State) {
    && i < |queue| && (start.process.Recovering? ==> !start.process.work.RecoverList?)
    && here.process == Recovering(RecoverRead(queue[i..])) && RunRecovery(cfg, start) == RunRecovery(cfg, here)
    && (t == here.(process := Down) || t == Handle(cfg, here.(process := Down), queue[i].record.value.Ask()))
  }

  ghost predicate CutShort(cfg: Config, start: State, queue: seq<Entry>, t: State) {
    exists i: nat, here :: StoppedAt(cfg, start, queue, i, here, t)
  }

  /** Another intent has the request ID. */
  predicate Taken(store: Store, p: Pending) { p.ID() in store.pending && store.pending[p.ID()].value != p }

  /** The intent is recorded and the rest of the store is as before. */
  ghost predicate IsIntended(before: Store, p: Pending, store: Store) {
    && p.ID() in store.pending && store.pending[p.ID()].value == p
    && store.history == before.history && store.heads == before.heads
    && forall id :: id != p.ID() ==>
         (id in store.pending <==> id in before.pending)
         && (id in store.pending ==> store.pending[id] == before.pending[id])
  }

  /** The record is gone, if it was still this version of it. */
  function Without(pending: map<PendingID, Versioned<Pending>>, id: PendingID, version: nat)
    : map<PendingID, Versioned<Pending>>
  {
    if id in pending && pending[id].version == version then pending - {id} else pending
  }

  /** The head is where it was if it was at the revision or past it, and else moved there; being at the
      revision with another hash is a conflict. */
  predicate IsHeadWritten(before: Store, after: Store, scope: Scope, revision: nat, hash: string,
                          error: Option<ErrorCode>)
  {
    var stands := scope in before.heads && before.heads[scope].value.revision >= revision;
    var version := if scope in before.heads then before.heads[scope].version + 1 else 1;
    && error == (if stands && before.heads[scope].value.revision == revision && before.heads[scope].value.hash != hash
                 then Some(Conflict) else None)
    && after == if stands then before
                else before.(heads := before.heads[scope := Versioned(Head(scope, revision, hash), version)])
  }

  /** A revision on record with this hash is left alone, one with another hash is a conflict, and a new one is
      added in one step with the record dropped and the head moved, or not at all. */
  predicate IsFinished(before: Store, after: Store, r: Revision, id: PendingID, version: nat, error: Option<ErrorCode>)
  {
    var own := RevisionID(r.scope, r.revision);
    if own in before.history then
      if before.history[own].value.hash != r.hash then error == Some(Conflict) && after == before
      else IsHeadWritten(before.(pending := Without(before.pending, id, version)), after, r.scope, r.revision, r.hash,
                         error)
    else if IsHeadWritten(before, before, r.scope, r.revision, r.hash, Some(Conflict)) then
      error == Some(Conflict) && after == before
    else if id !in before.pending then error == Some(NotFound) && after == before
    else if before.pending[id].version != version then error == Some(Conflict) && after == before
    else
      && error.None? && after.history == before.history[own := Versioned(r, 1)]
      && after.pending == before.pending - {id}
      && IsHeadWritten(before, before.(heads := after.heads), r.scope, r.revision, r.hash, None)
  }

  /** Recovery drops a record that Core has passed, or at whose target it has other rules, finds Core behind the
      target in conflict with the record, and finishes the record if Core has its rules at its target. */
  predicate IsSettled(before: Store, after: Store, e: Entry, current: RuleSet, error: Option<ErrorCode>) {
    var p := e.record.value;
    if IsPermutedAt(current, p) then
      IsFinished(before, after, Revision(p.scope, p.target, current.hash, current.rules, p.actor, p.requestID,
                                         FromRecovery, p.createdAt),
                 e.id, e.record.version, error)
    else if current.revision < p.target then error == Some(Conflict) && after == before
    else
      && after == before.(pending := Without(before.pending, e.id, e.record.version))
      && error == if e.id in before.pending && before.pending[e.id].version != e.record.version then Some(Conflict)
                  else None
  }

  /** A revision of Core that history does not know is recorded as recovered, without an actor; one that history
      has with another hash is a conflict; otherwise the head follows. */
  predicate IsRepaired(before: Store, after: Store, scope: Scope, current: RuleSet, requestID: string, now: nat,
                       error: Option<ErrorCode>)
  {
    var own := RevisionID(scope, current.revision);
    var r := Revision(scope, current.revision, current.hash, current.rules, "", requestID, FromRecovery, now);
    if own in before.history && before.history[own].value.hash != current.hash then
      error == Some(Conflict) && after == before
    else
      var known := if own in before.history then before else before.(history := before.history[own := Versioned(r, 1)]);
      IsHeadWritten(known, after, scope, current.revision, current.hash, error)
  }

  /** Heads on record have versions, which start at 1. */
  predicate IsVersioned(store: Store) { forall scope :: scope in store.heads ==> store.heads[scope].version >= 1 }

  /** The history gains this revision, or nothing. */
  ghost predicate OnlyRecords(before: Store, after: Store, r: Revision) {
    || after.history == before.history
    || (RevisionOf(r) !in before.history && after.history == before.history[RevisionOf(r) := Versioned(r, 1)])
  }

  /** Nothing leaves the history, and what it gains comes from one of the listed records. */
  ghost predicate GainsOnlyFrom(cfg: Config, before: Store, after: Store, queue: seq<Entry>) {
    && (forall id :: id in before.history ==> id in after.history && after.history[id] == before.history[id])
    && (forall id :: id in after.history && id !in before.history ==>
          exists i :: 0 <= i < |queue| && IsRecoveredFrom(cfg, after.history[id].value, queue[i].record.value))
  }

  ghost predicate IsRecoveredFrom(cfg: Config, r: Revision, p: Pending) { r.source.FromRecovery? && IsFrom(cfg, r, p) }

  /** Core stands at the record's target, with the record's rules in whatever order. */
  predicate IsPermutedAt(current: RuleSet, p: Pending) {
    current.revision == p.target && SameContents(current.rules, p.rules)
  }

  /** The history gains at most the revision that the intent asked for, as an applied one of this time. */
  ghost predicate RecordsOwn(cfg: Config, before: Store, after: Store, p: Pending, now: nat) {
    || after.history == before.history
    || (RevisionID(p.scope, p.target) in after.history
        && OnlyRecords(before, after, after.history[RevisionID(p.scope, p.target)].value)
        && IsAppliedFrom(cfg, after.history[RevisionID(p.scope, p.target)].value, p, now))
  }

  ghost predicate IsAppliedFrom(cfg: Config, r: Revision, p: Pending, now: nat) {
    r.source.FromApply? && r.createdAt == now && IsFrom(cfg, r, p)
  }

  /** Comparing in the code's way decides, unless two rules are for the same object type. */
  lemma SettlesByContents(left: seq<Rule>, right: seq<Rule>)
    ensures SameRules(left, right) ==> SameContents(left, right)
    ensures TypesDiffer(left) ==> (SameRules(left, right) <==> SameContents(left, right))
  {
    if SameRules(left, right) {
      SameMeansPermuted(left, right);
    }
    if TypesDiffer(left) {
      SameIffPermuted(left, right);
    }
  }

  /** Settling one record installs its rules if they are next in line, and then records them under
      the record's name exactly if Core has them, in whatever order, at the record's target. */
  lemma SettleOneRecords(cfg: Config, o: Outcome, p: Pending)
    ensures var t := SettleOne(cfg, o, p);
            var before, now, id := CoreAt(o.core, p.scope), CoreAt(t.core, p.scope), RevisionID(p.scope, p.target);
            var r := Revision(p.scope, p.target, now.hash, now.rules, p.actor, p.requestID, FromRecovery, p.createdAt);
            && now == (if before.revision == p.expected then RuleSet(p.target, cfg.hash(p.rules), p.rules) else before)
            && (forall scope :: scope != p.scope ==> CoreAt(t.core, scope) == CoreAt(o.core, scope))
            && (t.history != o.history ==>
                  IsPermutedAt(now, p) && id !in o.history && t.history == o.history[id := Versioned(r, 1)])
            && (IsPermutedAt(now, p) && TypesDiffer(now.rules) ==> id in t.history)
  {
    var now := CoreAt(SettleOne(cfg, o, p).core, p.scope);
    SettlesByContents(now.rules, p.rules);
  }

  lemma OneMoreGain(cfg: Config, start: Store, before: Store, after: Store, queue: seq<Entry>, i: nat, current: RuleSet)
    requires GainsOnlyFrom(cfg, start, before, queue) && i < |queue|
    requires var p := queue[i].record.value;
             && OnlyRecords(before, after, Revision(p.scope, p.target, current.hash, current.rules, p.actor,
                                                    p.requestID, FromRecovery, p.createdAt))
             && (after.history != before.history ==> SameContents(current.rules, p.rules))
    ensures GainsOnlyFrom(cfg, start, after, queue)
  {
    forall id | id in after.history && id !in start.history
      ensures exists j :: 0 <= j < |queue| && IsRecoveredFrom(cfg, after.history[id].value, queue[j].record.value)
    {
      if id in before.history {
        var j :| 0 <= j < |queue| && IsRecoveredFrom(cfg, before.history[id].value, queue[j].record.value);
        assert after.history[id] == before.history[id];
      } else {
        assert IsRecoveredFrom(cfg, after.history[id].value, queue[i].record.value);
      }
    }
  }

  class Service {
    const cfg: Config
    var core: map<Scope, RuleSet>
    var store: Store

    ghost var timeline: map<RevisionID, RuleSet>
    ghost var installer: map<Scope, PendingID>

    /** The protocol's view of the service. */
    ghost function During(process: Process): State
      reads this
    {
      State(core, store, multiset{}, process, timeline, installer)
    }

    constructor (cfg: Config, core: map<Scope, RuleSet>)
      ensures this.cfg == cfg && this.core == core && store == Store(map[], map[], map[])
    {
      this.cfg := cfg;
      this.core := core;
      store := Store(map[], map[], map[]);
      timeline, installer := map[], map[];
    }

    method ListPending() returns (queue: seq<Entry>)
      ensures IsListing(queue, store.pending)
    {
      var byKey: map<string, Entry> := map[];
      var left := store.pending.Keys;
      while left != {}
        invariant left <= store.pending.Keys
        invariant forall key :: key in byKey ==> IsFiled(byKey[key], key, store.pending)
        invariant forall id :: id in store.pending && id !in left ==> KeyOfID(id) in byKey
        decreases |left|
      {
        var id :| id in left;
        byKey := byKey[KeyOfID(id) := Entry(id, store.pending[id])];
        left := left - {id};
      }
      ghost var keys;
      queue, keys := Sorting.SortByKey(byKey);
      FiledIsListing(byKey, keys, queue, store.pending);
    }

    /** A request to Core; Core may act even when its answer does not come back. */
    method AskCore(m: Message, line: Line) returns (r: Result<RuleSet>)
      modifies this`core, this`timeline, this`installer
      ensures forall process :: During(process) == if line.NotReached? then old(During(process))
                                                   else Handle(cfg, old(During(process)), m)
      ensures !line.Delivered? ==> r == Err(Unavailable)
      ensures line.Delivered? ==> r == AnswerOf(CoreReply(cfg, CoreAt(old(core), m.id.scope), m))
    {
      if line.NotReached? {
        return Err(Unavailable);
      }
      var reply := CoreReply(cfg, CoreAt(core, m.id.scope), m);
      match reply {
        case Refused(code) => r := Err(code);
        case Accepted(current) =>
          if current != CoreAt(core, m.id.scope) {
            core := core[m.id.scope := current];
            timeline := timeline[RevisionID(m.id.scope, current.revision) := current];
            installer := installer[m.id.scope := m.id];
          }
          r := Ok(current);
      }
      if line.AnswerLost? {
        r := Err(Unavailable);
      }
    }

    method WriteHead(scope: Scope, revision: nat, hash: string) returns (error: Option<ErrorCode>)
      modifies this`store
      ensures var (after, last) := RunFinish(old(store), HeadGet(scope, revision, hash));
              store == after && last == if error.None? then Returned(scope, revision) else Failed(error.value)
      ensures error != Some(Unavailable) && store.history == old(store).history
      ensures IsVersioned(old(store)) ==> IsHeadWritten(old(store), store, scope, revision, hash, error)
    {
      RunHeadGet(store, scope, revision, hash);
      var expected := 0;
      if scope in store.heads {
        var record := store.heads[scope];
        if record.value.revision == revision && record.value.hash == hash {
          return None;
        }
        if record.value.revision > revision {
          return None;
        }
        if record.value.revision == revision {
          return Some(Conflict);
        }
        expected := record.version;
      }
      RunHeadPut(store, scope, revision, hash, expected);
      var put := PutHead(store, Head(scope, revision, hash), expected);
      if put.Err? {
        return Some(put.code);
      }
      store := put.value;
      return None;
    }

    method FinishApply(r: Revision, id: PendingID, version: nat) returns (error: Option<ErrorCode>)
      modifies this`store
      ensures var (after, last) := RunFinish(old(store), FinishGet(r, id, version));
              store == after && last == if error.None? then Returned(r.scope, r.revision) else Failed(error.value)
      ensures error != Some(Unavailable)
      ensures OnlyRecords(old(store), store, r) && (error.None? ==> RevisionOf(r) in store.history)
      ensures IsVersioned(old(store)) ==> IsFinished(old(store), store, r, id, version, error)
    {
      if RevisionOf(r) in store.history {
        RunForget(store, r, id, version);
        if store.history[RevisionOf(r)].value.hash != r.hash {
          return Some(Conflict);
        }
        var dropped := DropPending(store, id, version);
        if dropped.Ok? {
          store := dropped.value;
        }
        error := WriteHead(r.scope, r.revision, r.hash);
        return;
      }
      var headVersion, writeHead := 0, true;
      if r.scope in store.heads {
        var record := store.heads[r.scope];
        if record.value.revision > r.revision || (record.value.revision == r.revision && record.value.hash == r.hash) {
          writeHead := false;
        } else if record.value.revision == r.revision {
          RunClash(store, r, id, version);
          return Some(Conflict);
        }
        headVersion := record.version;
      }
      RunCommit(store, r, id, version, writeHead, headVersion);
      var done := FinishTransaction(store, r, id, version, writeHead, headVersion);
      if done.Err? {
        return Some(done.code);
      }
      store := done.value;
      return None;
    }

    /** Core's rules as a pending record finds them, after putting the record to Core if it is next in line.
        Reading Core may fail, and so may asking it, with or without effect. */
    method Fetch(p: Pending, readable: bool, line: Line, ghost queue: seq<Entry>) returns (answer: Result<RuleSet>)
      requires queue != [] && queue[0].record.value == p
      modifies this`core, this`timeline, this`installer
      ensures Answered(old(core), p, readable, line) ==>
        RunRecovery(cfg, old(During(Recovering(RecoverRead(queue))))) ==
        RunRecovery(cfg, During(if answer.Ok? then Proceed(Judge(queue, answer.value)) else Down))
        && answer != Err(Unavailable)
      ensures !Answered(old(core), p, readable, line) ==> answer == Err(Unavailable)
      ensures !Answered(old(core), p, readable, line) ==>
        During(Down) == if readable && line.AnswerLost? then Handle(cfg, old(During(Down)), p.Ask())
                        else old(During(Down))
    {
      if !readable {
        return Err(Unavailable);
      }
      ghost var first := During(Recovering(RecoverRead(queue)));
      var current := CoreAt(core, p.scope);
      if current.revision != p.expected {
        return Ok(current);
      }
      ghost var waiting := During(Recovering(RecoverWait(queue)));
      assert RunRecovery(cfg, first) == RunRecovery(cfg, waiting);
      answer := AskCore(p.Ask(), line);
      assert line.Delivered? ==> RecoveryStep(cfg, waiting, waiting.process.work, []) ==
                                 During(if answer.Ok? then Proceed(Judge(queue, answer.value)) else Down);
    }

    /** Drop the pending record if Core moved past it, record it if Core has its rules. */
    method Settle(e: Entry, current: RuleSet, ghost queue: seq<Entry>) returns (error: Option<ErrorCode>)
      requires queue != [] && queue[0] == e
      modifies this`store
      ensures RunRecovery(cfg, old(During(Proceed(Judge(queue, current))))) ==
              RunRecovery(cfg, During(if error.None? then Recovering(RecoverRead(queue[1..])) else Down))
      ensures error != Some(Unavailable)
      ensures var p := e.record.value;
              var r := Revision(p.scope, p.target, current.hash, current.rules, p.actor, p.requestID, FromRecovery,
                                p.createdAt);
              && OnlyRecords(old(store), store, r)
              && (store.history != old(store).history ==> IsPermutedAt(current, p))
              && (error.None? && IsPermutedAt(current, p) && TypesDiffer(current.rules) ==>
                    RevisionOf(r) in store.history)
      ensures IsVersioned(old(store)) && TypesDiffer(current.rules) ==>
                IsSettled(old(store), store, e, current, error)
    {
      SettlesByContents(current.rules, e.record.value.rules);
      var p := e.record.value;
      if current.revision >= p.target && (current.revision != p.target || !SameRules(current.rules, p.rules)) {
        ghost var here := During(Recovering(RecoverDrop(queue, current)));
        var dropped := DropPending(store, e.id, e.record.version);
        if dropped.Err? && dropped.code != NotFound {
          assert RecoveryStep(cfg, here, here.process.work, []) == During(Down);
          return Some(dropped.code);
        }
        if dropped.Ok? {
          store := dropped.value;
        }
        assert RecoveryStep(cfg, here, here.process.work, []) == During(Recovering(RecoverRead(queue[1..])));
        return None;
      }
      if current.revision != p.target || !SameRules(current.rules, p.rules) {
        return Some(Conflict);
      }
      ghost var call := FinishGet(Recovered(p, current), e.id, e.record.version);
      FinishWithinRecovery(cfg, During(Recovering(RecoverFinish(queue, call))), queue, call);
      error := FinishApply(Recovered(p, current), e.id, e.record.version);
    }

    /** Resume the applies that were interrupted, in key order, stopping at the first failure. Without
        one the whole recovery has run; Core out of reach stops it where it is; any other error is
        the one that recovery itself ends with. */
    method Reconcile(readable: nat -> bool, line: nat -> Line)
      returns (error: Option<ErrorCode>, ghost queue: seq<Entry>)
      modifies this
      ensures IsListing(queue, old(store).pending)
      ensures error != Some(Unavailable) ==>
        RunRecovery(cfg, old(During(Recovering(RecoverRead(queue))))) == During(if error.None? then Serving(map[])
                                                                                else Down)
      ensures error == Some(Unavailable) ==>
        CutShort(cfg, old(During(Recovering(RecoverRead(queue)))), queue, During(Down))
      ensures GainsOnlyFrom(cfg, old(store), store, queue)
      ensures (forall i :: readable(i) && line(i).Delivered?) ==> error != Some(Unavailable)
    {
      var entries := ListPending();
      queue := entries;
      var i := 0;
      ghost var start := During(Recovering(RecoverRead(queue)));
      assert entries[0..] == entries;
      while i < |entries|
        invariant 0 <= i <= |entries|
        invariant RunRecovery(cfg, start) == RunRecovery(cfg, During(Recovering(RecoverRead(entries[i..]))))
        invariant GainsOnlyFrom(cfg, old(store), store, queue)
      {
        ghost var before := store;
        ghost var here := During(Recovering(RecoverRead(entries[i..])));
        assert here.(process := Down) == During(Down);
        var answer := Fetch(entries[i].record.value, readable(i), line(i), entries[i..]);
        if answer.Err? {
          assert answer.code == Unavailable ==> StoppedAt(cfg, start, queue, i, here, During(Down));
          return Some(answer.code), queue;
        }
        error := Settle(entries[i], answer.value, entries[i..]);
        OneMoreGain(cfg, old(store), before, store, queue, i, answer.value);
        if error.Some? {
          return;
        }
        assert entries[i..][1..] == entries[i + 1..];
        i := i + 1;
      }
      error := None;
    }

    /** Write the intent record, or find the same one already there. */
    method Intend(p: Pending, ghost now: nat) returns (version: Result<nat>)
      modifies this`store
      ensures version.Err? <==> Taken(old(store), p)
      ensures version.Err? ==> version == Err(Conflict) && store == old(store)
      ensures version.Err? ==>
        RunCall(cfg, old(During(Down)), ApplyPut(p), now) == (old(During(Down)), Failed(Conflict))
      ensures version.Ok? ==>
        RunCall(cfg, old(During(Down)), ApplyPut(p), now) ==
        RunCall(cfg, During(Down), ApplyWait(p, version.value), now)
      ensures version.Ok? ==> IsIntended(old(store), p, store) && store.pending[p.ID()].version == version.value
    {
      RunIntend(cfg, During(Down), p, now);
      var put := AddPending(store, p);
      if put.Err? {
        if store.pending[p.ID()].value != p {
          return Err(Conflict);
        }
        return Ok(store.pending[p.ID()].version);
      }
      store := put.value;
      version := Ok(1);
    }

    /** A final refusal settles the matter: the intent goes, if it is still the one written. */
    method Forget(p: Pending, version: nat, code: ErrorCode, ghost now: nat)
      requires IsFinal(code)
      modifies this`store
      ensures RunCall(cfg, old(During(Down)), ApplyForget(p, version, code), now) == (During(Down), Failed(code))
      ensures store == old(store).(pending := Without(old(store).pending, p.ID(), version))
    {
      RunRefused(cfg, During(Down), p, version, code, now);
      var dropped := DropPending(store, p.ID(), version);
      if dropped.Ok? {
        store := dropped.value;
      }
    }

    /** Put the intent to Core and act on the answer. */
    method Submit(p: Pending, version: nat, now: nat, line: Line) returns (r: Result<RuleSet>)
      modifies this
      ensures line.Delivered? ==>
        RunCall(cfg, old(During(Down)), ApplyWait(p, version), now)
        == (During(Down), if r.Ok? then Returned(p.scope, r.value.revision) else Failed(r.code))
      ensures line.Delivered? && r.Ok? ==> r.value.revision == p.target
      ensures !line.Delivered? ==> r == Err(Unavailable) && store == old(store)
      ensures RecordsOwn(cfg, old(store), store, p, now)
      ensures r.Ok? ==> RevisionID(p.scope, p.target) in store.history
      ensures line.Delivered? && CoreReply(cfg, CoreAt(old(core), p.scope), p.Ask()).Refused? ==>
                r.Err? && store == old(store).(pending := Without(old(store).pending, p.ID(), version))
    {
      RunAsk(cfg, During(Down), p, version, now);
      AnswerIsTarget(cfg, core, p);
      var answer := AskCore(p.Ask(), line);
      if answer.Err? {
        if IsFinal(answer.code) {
          Forget(p, version, answer.code, now);
        }
        return Err(answer.code);
      }
      AcceptedIsFrom(cfg, CoreAt(old(core), p.scope), p, now);
      var error := RecordApplied(p, answer.value, version, now);
      if error.Some? {
        return Err(error.value);
      }
      return Ok(answer.value);
    }

    /** Record what Core installed for the intent. */
    method RecordApplied(p: Pending, current: RuleSet, version: nat, now: nat) returns (error: Option<ErrorCode>)
      modifies this`store
      ensures RunCall(cfg, old(During(Down)), FinishGet(Applied(p, current, now), p.ID(), version), now)
              == (During(Down), if error.None? then Returned(p.scope, current.revision) else Failed(error.value))
      ensures OnlyRecords(old(store), store, Revision(p.scope, current.revision, current.hash, current.rules, p.actor,
                                                      p.requestID, FromApply, now))
      ensures error.None? ==> RevisionID(p.scope, current.revision) in store.history
    {
      var revision :=
        Revision(p.scope, current.revision, current.hash, current.rules, p.actor, p.requestID, FromApply, now);
      RunFinishing(cfg, During(Down), FinishGet(revision, p.ID(), version), now);
      error := FinishApply(revision, p.ID(), version);
    }

    /** Write the intent, ask Core, record the outcome. */
    method CarryOut(p: Pending, now: nat, line: Line) returns (r: Result<RuleSet>)
      modifies this
      ensures line.Delivered? ==>
        RunCall(cfg, old(During(Down)), ApplyPut(p), now)
        == (During(Down), if r.Ok? then Returned(p.scope, p.target) else Failed(r.code))
      ensures Taken(old(store), p) ==> r == Err(Conflict) && During(Down) == old(During(Down))
      ensures !line.Delivered? && !Taken(old(store), p) ==>
        r == Err(Unavailable) && IsIntended(old(store), p, store)
      ensures RecordsOwn(cfg, old(store), store, p, now)
      ensures r.Ok? ==> RevisionID(p.scope, p.target) in store.history
    {
      var version := Intend(p, now);
      if version.Err? {
        return Err(version.code);
      }
      r := Submit(p, version.value, now, line);
    }

    /** Install new rules: write the intent, ask Core, record the outcome. An answer that does not
        arrive, or an error that does not settle the matter, leaves the intent for recovery. */
    method Apply(scope: Scope, input: ApplyInput, now: nat, line: Line) returns (r: Result<RuleSet>)
      modifies this
      ensures input.requestID == "" ==> r == Err(Invalid) && During(Down) == old(During(Down))
      ensures input.requestID != "" && line.Delivered? ==>
        RunCall(cfg, old(During(Down)), ApplyPut(IntentOf(scope, input, now)), now)
        == (During(Down), if r.Ok? then Returned(scope, input.expected + 1) else Failed(r.code))
      ensures input.requestID != "" && Taken(old(store), IntentOf(scope, input, now)) ==>
        r == Err(Conflict) && During(Down) == old(During(Down))
      ensures input.requestID != "" && !line.Delivered? && !Taken(old(store), IntentOf(scope, input, now)) ==>
        r == Err(Unavailable) && IsIntended(old(store), IntentOf(scope, input, now), store)
      ensures input.requestID == "" ==> store == old(store)
      ensures RecordsOwn(cfg, old(store), store,
                         Pending(scope, input.expected, input.expected + 1, input.rules, input.actor, input.requestID,
                                 now), now)
      ensures r.Ok? ==> RevisionID(scope, input.expected + 1) in store.history
    {
      if input.requestID == "" {
        return Err(Invalid);
      }
      var target := input.expected + 1;
      r := CarryOut(Pending(scope, input.expected, target, input.rules, input.actor, input.requestID, now), now, line);
    }

    /** Make sure that history and head know about Core's rules. */
    method Repair(scope: Scope, current: RuleSet, requestID: string, now: nat) returns (error: Option<ErrorCode>)
      modifies this`store
      ensures RunCall(cfg, old(During(Down)), CurrentGet(scope, current, requestID), now) ==
              (During(Down), if error.None? then Returned(scope, current.revision) else Failed(error.value))
      ensures OnlyRecords(old(store), store, Revision(scope, current.revision, current.hash, current.rules, "",
                                                      requestID, FromRecovery, now))
      ensures error.None? ==> RevisionID(scope, current.revision) in store.history
      ensures IsVersioned(old(store)) ==> IsRepaired(old(store), store, scope, current, requestID, now, error)
    {
      var id := RevisionID(scope, current.revision);
      ghost var start := During(Down);
      ghost var first := RunCall(cfg, start, CurrentGet(scope, current, requestID), now);
      if id in store.history {
        if store.history[id].value.hash != current.hash {
          assert first == RunCall(cfg, start, Failed(Conflict), now) == (start, Failed(Conflict));
          return Some(Conflict);
        }
      } else {
        assert first == RunCall(cfg, start, CurrentPut(scope, current, requestID), now);
        var added := AddRevision(store, Revision(scope, current.revision, current.hash, current.rules, "", requestID,
                                                 FromRecovery, now));
        if added.Ok? {
          store := added.value;
        }
      }
      ghost var put := During(Down);
      assert first == RunCall(cfg, put, HeadGet(scope, current.revision, current.hash), now);
      RunFinishing(cfg, put, HeadGet(scope, current.revision, current.hash), now);
      error := WriteHead(scope, current.revision, current.hash);
    }

    /** Read Core's rules and make sure that history and head know about them. */
    method Current(scope: Scope, requestID: string, now: nat) returns (r: Result<RuleSet>)
      modifies this`store
      ensures var (after, last) := RunCall(cfg, old(During(Down)), CurrentRead(scope, requestID), now);
              During(Down) == after && (r.Err? <==> last.Failed?) && (r.Err? ==> r.code == last.code)
              && (r.Ok? ==> r.value == CoreAt(core, scope) &&
                            last == if r.value.revision == 0 then ReturnedUnruled
                                    else Returned(scope, r.value.revision))
      ensures CoreAt(core, scope).revision == 0 ==> r.Ok? && store == old(store)
      ensures IsVersioned(old(store)) && CoreAt(core, scope).revision > 0 ==>
                IsRepaired(old(store), store, scope, CoreAt(core, scope), requestID, now,
                           if r.Ok? then None else Some(r.code))
    {
      var current := CoreAt(core, scope);
      ghost var start := During(Down);
      if current.revision == 0 {
        return Ok(current);
      }
      assert RunCall(cfg, start, CurrentRead(scope, requestID), now) ==
             RunCall(cfg, start, CurrentGet(scope, current, requestID), now);
      var error := Repair(scope, current, requestID, now);
      if error.Some? {
        return Err(error.value);
      }
      return Ok(current);
    }
  }

  function Applied(p: Pending, current: RuleSet, now: nat): Revision {
    Revision(p.scope, current.revision, current.hash, current.rules, p.actor, p.requestID, FromApply, now)
  }

  /** What Core accepts for a record is the revision the record asks for. */
  lemma AnswerIsTarget(cfg: Config, core: map<Scope, RuleSet>, p: Pending)
    ensures var answer := AnswerOf(CoreReply(cfg, CoreAt(core, p.scope), p.Ask()));
            answer.Ok? ==> answer.value.revision == p.target
  {}

  lemma RunIntend(cfg: Config, s: State, p: Pending, now: nat)
    ensures var put := AddPending(s.store, p);
            RunCall(cfg, s, ApplyPut(p), now) ==
            if put.Ok? then RunCall(cfg, s.(store := put.value), ApplyWait(p, 1), now)
            else if s.store.pending[p.ID()].value != p then (s, Failed(Conflict))
            else RunCall(cfg, s, ApplyWait(p, s.store.pending[p.ID()].version), now)
  {
    var put := AddPending(s.store, p);
    if put.Ok? {
      RunSend(cfg, s.(store := put.value), p, 1, now);
    } else {
      assert RunCall(cfg, s, ApplyPut(p), now) == RunCall(cfg, s, ApplyGet(p), now);
      assert RunCall(cfg, s, Failed(Conflict), now) == (s, Failed(Conflict));
      RunSend(cfg, s, p, s.store.pending[p.ID()].version, now);
    }
  }

  lemma RunSend(cfg: Config, s: State, p: Pending, version: nat, now: nat)
    ensures RunCall(cfg, s, ApplySend(p, version), now) == RunCall(cfg, s, ApplyWait(p, version), now)
  {}

  lemma RunAsk(cfg: Config, s: State, p: Pending, version: nat, now: nat)
    ensures var answer := AnswerOf(CoreReply(cfg, CoreAt(s.core, p.scope), p.Ask()));
            RunCall(cfg, s, ApplyWait(p, version), now) ==
            RunCall(cfg, Handle(cfg, s, p.Ask()),
                    if answer.Err? then ApplyForget(p, version, answer.code)
                    else FinishGet(Applied(p, answer.value, now), p.ID(), version), now)
            && (answer.Err? ==> IsFinal(answer.code))
  {}

  lemma RunRefused(cfg: Config, s: State, p: Pending, version: nat, code: ErrorCode, now: nat)
    ensures var dropped := DropPending(s.store, p.ID(), version);
            RunCall(cfg, s, ApplyForget(p, version, code), now) ==
            (if dropped.Ok? then s.(store := dropped.value) else s, Failed(code))
  {}

  lemma {:induction false} RunFinishing(cfg: Config, s: State, call: Call, now: nat)
    requires IsFinishing(call) || IsOver(call)
    ensures var (store, last) := RunFinish(s.store, call);
            RunCall(cfg, s, call, now) == (s.(store := store), last)
    decreases Rank(call)
  {
    if IsFinishing(call) {
      var (after, next) := FinishStep(s.store, call);
      RunFinishing(cfg, s.(store := after), next, now);
    } else {
      assert s.(store := s.store) == s;
    }
  }

  /** From a reachable state in which recovery can succeed, the code's Reconcile succeeds and
      leaves exactly what the records settle on. */
  lemma {:induction false} ReconcileSettles(cfg: Config, s: State, queue: seq<Entry>)
    requires Course(cfg, s) && s.process.Recovering? && !s.process.work.RecoverList?
    requires IsListing(queue, s.store.pending)
    ensures var t := RunRecovery(cfg, s);
            t.process == Serving(map[]) && t.store.pending == map[]
            && Outcome(t.core, t.store.history) == SettleAll(cfg, Outcome(s.core, s.store.history), queue)
  {
    RunStaysOnCourse(cfg, s);
    var t := RunRecovery(cfg, s);
    var o := SettleAll(cfg, Outcome(s.core, s.store.history), queue);
    assert IsFate(cfg, s, o) && IsFate(cfg, t, o);
    assert IsListing([], t.store.pending);
    FateFrom(cfg, t, []);
  }

  lemma {:induction false} RunStaysOnCourse(cfg: Config, s: State)
    requires Course(cfg, s) && s.process.Recovering? && !s.process.work.RecoverList?
    ensures var t := RunRecovery(cfg, s);
            t.process == Serving(map[]) && t.store.pending == map[] && SameFate(cfg, s, t)
    decreases StepsLeft(s.process.work)
  {
    CourseStep(cfg, s, [], 0);
    var t := RecoveryStep(cfg, s, s.process.work, []);
    assert t == Do(cfg, s, Recover([], 0));
    if t.process.Recovering? {
      RunStaysOnCourse(cfg, t);
    }
  }
}
