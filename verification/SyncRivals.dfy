/** When startup recovery can be relied on to get through: exactly if no stranded request competes
    with a pending record for Core's next revision. */
module SyncRivals {
  import opened Results
  import opened Keys
  import opened Table
  import opened SyncProtocol
  import opened SyncSafety
  import opened SyncRecovery
  import opened SyncLate
  import Text

  // ---- Competing for Core's next revision ----

  /** The record asks for Core's next revision. */
  ghost predicate Live(s: State, id: PendingID) {
    id in s.store.pending && s.store.pending[id].value.expected == CoreAt(s.core, id.scope).revision
  }

  /** Of the records that ask for it, this is the one recovery comes to first. */
  ghost predicate FirstLive(s: State, id: PendingID) {
    && Live(s, id)
    && forall other :: Live(s, other) && other.scope == id.scope && other != id ==>
         Text.Less(KeyOfID(id), KeyOfID(other))
  }

  /** A stranded request would give that revision other rules than the record wants. */
  ghost predicate Rival(cfg: Config, s: State, m: Message, id: PendingID) {
    && m in s.orphans && FirstLive(s, id)
    && m.id.scope == id.scope && m.expected == CoreAt(s.core, id.scope).revision
    && cfg.hash(m.rules) != cfg.hash(s.store.pending[id].value.rules)
  }

  ghost predicate NoRivals(cfg: Config, s: State) {
    forall m, id :: !Rival(cfg, s, m, id)
  }

  // ---- What one step does to the records and to Core ----

  /** Only records that no longer ask for the next revision leave. */
  ghost predicate OnlyDeadLeave(s: State, t: State) {
    forall id :: id in s.store.pending && id !in t.store.pending ==> !Live(s, id)
  }

  lemma DropLeaves(cfg: Config, s: State, queue: seq<Entry>, current: RuleSet, t: State)
    requires StoreInv(s) && WorkInv(s, RecoverDrop(queue, current))
    requires t == RecoveryStep(cfg, s, RecoverDrop(queue, current), [])
    ensures OnlyDeadLeave(s, t) && t.core == s.core
  {
    assert !Live(s, queue[0].id);
    assert forall id :: id in s.store.pending && id !in t.store.pending ==> id == queue[0].id;
  }

  lemma FinishedIsDead(s: State, call: Call)
    requires PendingIsFiled(s) && CallInv(s, call) && (call.FinishForget? || call.FinishCommit?)
    ensures !Live(s, call.id)
  {}

  lemma FinishLeaves(cfg: Config, s: State, queue: seq<Entry>, call: Call, t: State)
    requires StoreInv(s) && WorkInv(s, RecoverFinish(queue, call))
    requires t == RecoveryStep(cfg, s, RecoverFinish(queue, call), [])
    ensures OnlyDeadLeave(s, t) && t.core == s.core
  {
    if IsFinishing(call) {
      FinishStepIs(cfg, s, queue, call, t);
      FinishRemoves(s.store, call);
      if call.FinishForget? || call.FinishCommit? {
        FinishedIsDead(s, call);
      }
    }
  }

  lemma QuietLeaves(cfg: Config, s: State, work: Recovery, listing: seq<Entry>, t: State)
    requires work.RecoverList? || work.RecoverRead?
    requires t == RecoveryStep(cfg, s, work, listing)
    ensures OnlyDeadLeave(s, t) && t.core == s.core && t.store == s.store
  {}

  lemma WaitLeaves(cfg: Config, s: State, queue: seq<Entry>, t: State)
    requires Inv(cfg, s) && Ready(cfg, s) && s.process == Recovering(RecoverWait(queue))
    requires t == RecoveryStep(cfg, s, RecoverWait(queue), [])
    ensures t.store == s.store
    ensures forall scope ::
              CoreAt(t.core, scope) == CoreAt(s.core, scope)
              || (scope == queue[0].id.scope && Live(s, queue[0].id)
                  && CoreAt(t.core, scope).revision > CoreAt(s.core, scope).revision)
  {
    WaitedFor(cfg, s, queue);
  }

  /** Core moves only in the scope of the record asked for, and only if that record is next in line. */
  ghost predicate CoreMoves(s: State, t: State) {
    forall scope ::
      CoreAt(t.core, scope) == CoreAt(s.core, scope)
      || (s.process.Recovering? && s.process.work.RecoverWait? && s.process.work.queue != []
          && scope == s.process.work.queue[0].id.scope && Live(s, s.process.work.queue[0].id)
          && CoreAt(t.core, scope).revision > CoreAt(s.core, scope).revision)
  }

  lemma StepWorld(cfg: Config, s: State, listing: seq<Entry>, t: State)
    requires Inv(cfg, s) && Ready(cfg, s) && s.process.Recovering? && t == RecoveryStep(cfg, s, s.process.work, listing)
    ensures OnlyDeadLeave(s, t) && PendingWithin(s, t) && CoreMoves(s, t) && t.orphans == s.orphans
  {
    Parts(cfg, s);
    SoundParts(cfg, s);
    RecoverWithin(cfg, s, listing, t);
    match s.process.work
    case RecoverWait(queue) =>
      WaitedFor(cfg, s, queue);
      WaitLeaves(cfg, s, queue, t);
    case RecoverDrop(queue, current) => DropLeaves(cfg, s, queue, current, t);
    case RecoverFinish(queue, call) => FinishLeaves(cfg, s, queue, call, t);
    case _ => QuietLeaves(cfg, s, s.process.work, listing, t);
  }

  // ---- Without rivals no attempt fails ----

  ghost predicate WithinBase(base: map<Scope, RuleSet>, s: State) {
    && (forall id :: id in s.store.pending ==>
          s.store.pending[id].value.expected <= CoreAt(base, id.scope).revision)
    && (forall scope :: CoreAt(base, scope).revision <= CoreAt(s.core, scope).revision)
  }

  /** The record about to be asked for is the first in line, and its place is free or taken by its own rules. */
  ghost predicate WaitsCalmly(cfg: Config, base: map<Scope, RuleSet>, s: State) {
    s.process.Recovering? && s.process.work.RecoverWait? && s.process.work.queue != [] ==>
      var p := s.process.work.queue[0].record.value;
      p.expected == CoreAt(base, p.scope).revision && !Beaten(cfg, CoreAt(s.core, p.scope), p)
  }

  /** No rivals since Core stood at base. */
  ghost predicate Calm(cfg: Config, base: map<Scope, RuleSet>, s: State) {
    Steady(cfg, s) && NoRivals(cfg, s) && WithinBase(base, s) && WaitsCalmly(cfg, base, s)
  }

  ghost predicate CoreOnward(s: State, t: State) {
    forall scope ::
      CoreAt(t.core, scope) == CoreAt(s.core, scope) || CoreAt(t.core, scope).revision > CoreAt(s.core, scope).revision
  }

  /** Where Core has moved past base, nothing is live any more; elsewhere a rival was one before. */
  lemma NoNewRivals(cfg: Config, base: map<Scope, RuleSet>, s: State, t: State)
    requires NoRivals(cfg, s) && WithinBase(base, s) && PendingWithin(s, t) && OnlyDeadLeave(s, t)
    requires CoreOnward(s, t)
    requires forall m :: m in t.orphans ==> m in s.orphans
    ensures NoRivals(cfg, t) && WithinBase(base, t)
  {
    forall m, id
      ensures !Rival(cfg, t, m, id)
    {
      if Rival(cfg, t, m, id) {
        assert Live(t, id);
        assert CoreAt(t.core, id.scope) == CoreAt(s.core, id.scope);
        forall other | Live(s, other) && other.scope == id.scope && other != id
          ensures Text.Less(KeyOfID(id), KeyOfID(other))
        {
          assert Live(t, other);
        }
        assert Rival(cfg, s, m, id);
      }
    }
  }

  lemma FrontIsFirst(s: State, queue: seq<Entry>, id: PendingID)
    requires IsListing(queue, s.store.pending) && queue != [] && Live(s, queue[0].id)
    ensures FirstLive(s, queue[0].id)
    ensures FirstLive(s, id) && id.scope == queue[0].id.scope ==> id == queue[0].id
  {
    forall other | Live(s, other) && other != queue[0].id
      ensures Text.Less(KeyOfID(queue[0].id), KeyOfID(other))
    {
      FirstIsLeast(queue, s.store.pending, other);
    }
    if FirstLive(s, id) && id.scope == queue[0].id.scope && id != queue[0].id {
      Text.LessTrans(KeyOfID(id), KeyOfID(queue[0].id), KeyOfID(id));
      Text.LessIrreflexive(KeyOfID(id));
    }
  }

  lemma ReadWaits(cfg: Config, base: map<Scope, RuleSet>, s: State, queue: seq<Entry>, t: State)
    requires WellFormedPending(s) && WithinBase(base, s) && IsListing(queue, s.store.pending)
    requires t == RecoveryStep(cfg, s, RecoverRead(queue), [])
    ensures WaitsCalmly(cfg, base, t)
  {
    if queue != [] {
      FirstIsWellFormed(s, queue);
    }
  }

  lemma OthersDoNotWait(cfg: Config, s: State, work: Recovery, listing: seq<Entry>, t: State)
    requires !work.RecoverRead? && t == RecoveryStep(cfg, s, work, listing)
    ensures t.process.Recovering? ==> !t.process.work.RecoverWait?
  {}

  lemma MovesOnward(s: State, t: State)
    requires CoreMoves(s, t)
    ensures CoreOnward(s, t)
  {}

  lemma CalmRecover(cfg: Config, base: map<Scope, RuleSet>, s: State, e: Event, t: State)
    requires Calm(cfg, base, s) && e.Recover? && Enabled(s, e) && t == Do(cfg, s, e)
    ensures Calm(cfg, base, t) && !Fails(cfg, s, e)
  {
    SteadyEvent(cfg, s, e, t);
    StepWorld(cfg, s, e.queue, t);
    MovesOnward(s, t);
    NoNewRivals(cfg, base, s, t);
    if s.process.work.RecoverRead? {
      AllWellFormed(cfg, s);
      ReadWaits(cfg, base, s, s.process.work.queue, t);
    } else {
      OthersDoNotWait(cfg, s, s.process.work, e.queue, t);
    }
  }

  lemma CalmCrash(cfg: Config, base: map<Scope, RuleSet>, s: State, t: State)
    requires Calm(cfg, base, s) && t == Do(cfg, s, Crash)
    ensures Calm(cfg, base, t)
  {
    SteadyEvent(cfg, s, Crash, t);
    forall m, id
      ensures !Rival(cfg, t, m, id)
    {
      if Rival(cfg, t, m, id) {
        CrashRival(cfg, s, t, m, id);
      }
    }
  }

  /** What a crash strands is the request of the record at the front, which cannot rival itself. */
  lemma CrashRival(cfg: Config, s: State, t: State, m: Message, id: PendingID)
    requires Steady(cfg, s) && t == Do(cfg, s, Crash) && Rival(cfg, t, m, id)
    ensures Rival(cfg, s, m, id)
  {
    assert forall other :: Live(t, other) == Live(s, other);
    assert FirstLive(s, id);
    if m !in s.orphans {
      assert m in CrashOrphans(s);
      CrashTrouble(cfg, s);
      if s.process.Recovering? {
        WaitedFor(cfg, s, s.process.work.queue);
        FrontIsFirst(s, s.process.work.queue, id);
      }
    }
  }

  lemma HandleMoves(cfg: Config, s: State, m: Message)
    requires Inv(cfg, s) && m in s.orphans && Handle(cfg, s, m).core != s.core
    ensures var current := CoreAt(s.core, m.id.scope);
            && m.expected == current.revision && m.target == current.revision + 1
            && m.id in s.store.pending && s.store.pending[m.id].value.expected == m.expected
            && Handle(cfg, s, m).core == s.core[m.id.scope := RuleSet(m.target, cfg.hash(m.rules), m.rules)]
  {
    Parts(cfg, s);
    SoundParts(cfg, s);
    assert Covered(s, m);
  }

  /** An installed request that is no rival of the record at the front carries its rules. */
  lemma NoRivalSameRules(cfg: Config, s: State, m: Message, queue: seq<Entry>)
    requires NoRivals(cfg, s) && m in s.orphans && IsListing(queue, s.store.pending) && queue != []
    requires Live(s, queue[0].id) && m.id.scope == queue[0].id.scope
    requires m.expected == CoreAt(s.core, m.id.scope).revision
    ensures cfg.hash(m.rules) == cfg.hash(queue[0].record.value.rules)
  {
    FrontIsFirst(s, queue, queue[0].id);
    FirstIsListed(queue, s.store.pending);
    assert !Rival(cfg, s, m, queue[0].id);
  }

  /** A late request that is installed finds Core where it was at base, so the record at the front is live. */
  lemma FrontIsLive(cfg: Config, base: map<Scope, RuleSet>, s: State, m: Message, p: Pending)
    requires Inv(cfg, s) && WithinBase(base, s) && m in s.orphans && Handle(cfg, s, m).core != s.core
    requires p.expected == CoreAt(base, p.scope).revision && p.scope == m.id.scope
    ensures p.expected == CoreAt(s.core, p.scope).revision == m.expected
    ensures Handle(cfg, s, m).core == s.core[p.scope := RuleSet(m.target, cfg.hash(m.rules), m.rules)]
    ensures m.target == m.expected + 1
  {
    HandleMoves(cfg, s, m);
  }

  lemma HandleWaits(cfg: Config, base: map<Scope, RuleSet>, s: State, m: Message, queue: seq<Entry>, p: Pending)
    requires Calm(cfg, base, s) && m in s.orphans && Handle(cfg, s, m).core != s.core
    requires s.process == Recovering(RecoverWait(queue)) && queue != [] && p == queue[0].record.value
    requires p.scope == m.id.scope
    ensures !Beaten(cfg, CoreAt(Handle(cfg, s, m).core, p.scope), p)
  {
    FrontIsLive(cfg, base, s, m, p);
    WaitedFor(cfg, s, queue);
    assert Live(s, queue[0].id);
    NoRivalSameRules(cfg, s, m, queue);
  }

  lemma HandleWaitsCalmly(cfg: Config, base: map<Scope, RuleSet>, s: State, m: Message, t: State)
    requires Calm(cfg, base, s) && m in s.orphans && t == Do(cfg, s, HandleOrphan(m))
    ensures WaitsCalmly(cfg, base, t)
  {
    if s.process.Recovering? && s.process.work.RecoverWait? && s.process.work.queue != [] {
      var queue := s.process.work.queue;
      assert s.process == Recovering(RecoverWait(queue));
      var p := queue[0].record.value;
      if t.core != s.core && p.scope == m.id.scope {
        HandleWaits(cfg, base, s, m, queue, p);
      } else {
        assert CoreAt(t.core, p.scope) == CoreAt(s.core, p.scope);
      }
    }
  }

  lemma HandleOnward(cfg: Config, s: State, m: Message, t: State)
    requires Inv(cfg, s) && m in s.orphans && t == Do(cfg, s, HandleOrphan(m))
    ensures CoreOnward(s, t) && t.store == s.store && t.orphans == s.orphans - multiset{m}
  {
    if t.core != s.core {
      HandleMoves(cfg, s, m);
    }
  }

  lemma CalmHandle(cfg: Config, base: map<Scope, RuleSet>, s: State, m: Message, t: State)
    requires Calm(cfg, base, s) && m in s.orphans && t == Do(cfg, s, HandleOrphan(m))
    ensures Calm(cfg, base, t)
  {
    SteadyEvent(cfg, s, HandleOrphan(m), t);
    HandleOnward(cfg, s, m, t);
    NoNewRivals(cfg, base, s, t);
    HandleWaitsCalmly(cfg, base, s, m, t);
  }

  lemma CalmQuiet(cfg: Config, base: map<Scope, RuleSet>, s: State, e: Event, t: State)
    requires Calm(cfg, base, s) && (e.Restart? || e.LoseOrphan?) && Enabled(s, e) && t == Do(cfg, s, e)
    ensures Calm(cfg, base, t)
  {
    SteadyEvent(cfg, s, e, t);
    NoNewRivals(cfg, base, s, t);
  }

  lemma CalmEvent(cfg: Config, base: map<Scope, RuleSet>, s: State, e: Event)
    requires Calm(cfg, base, s) && InRecovery(e) && Enabled(s, e)
    ensures Calm(cfg, base, Do(cfg, s, e)) && !Fails(cfg, s, e)
  {
    if e.Recover? {
      CalmRecover(cfg, base, s, e, Do(cfg, s, e));
    } else if e.Crash? {
      CalmCrash(cfg, base, s, Do(cfg, s, e));
    } else if e.HandleOrphan? {
      CalmHandle(cfg, base, s, e.m, Do(cfg, s, e));
    } else {
      CalmQuiet(cfg, base, s, e, Do(cfg, s, e));
    }
  }

  lemma {:induction false} CalmRun(cfg: Config, base: map<Scope, RuleSet>, s: State, events: seq<Event>)
    requires Calm(cfg, base, s) && AllInRecovery(events) && IsRun(cfg, s, events)
    ensures Failures(cfg, s, events) == 0
    decreases |events|
  {
    if events != [] {
      CalmEvent(cfg, base, s, events[0]);
      CalmRun(cfg, base, Do(cfg, s, events[0]), events[1..]);
    }
  }

  // ---- With a rival an attempt can fail ----

  lemma RivalInstalls(cfg: Config, s: State, m: Message, id: PendingID)
    requires Inv(cfg, s) && Ready(cfg, s) && Rival(cfg, s, m, id)
    ensures Handle(cfg, s, m).core == s.core[id.scope := RuleSet(m.target, cfg.hash(m.rules), m.rules)]
    ensures m.target == m.expected + 1
  {
    Parts(cfg, s);
    SoundParts(cfg, s);
    assert Covered(s, m);
    assert Backed(s, m);
    assert IsReady(cfg, s, m.id);
  }

  /** The record recovery is about to read or to ask for. */
  ghost predicate AtFront(s: State, id: PendingID) {
    && s.process.Recovering? && (s.process.work.RecoverRead? || s.process.work.RecoverWait?)
    && s.process.work.queue != [] && s.process.work.queue[0].id == id
  }

  lemma RivalCarries(cfg: Config, s: State, m: Message, id: PendingID, t: State)
    requires Rival(cfg, s, m, id) && PendingWithin(s, t) && OnlyDeadLeave(s, t) && t.orphans == s.orphans
    requires CoreAt(t.core, id.scope) == CoreAt(s.core, id.scope)
    ensures Rival(cfg, t, m, id)
  {
    forall other | Live(t, other) && other.scope == id.scope && other != id
      ensures Text.Less(KeyOfID(id), KeyOfID(other))
    {
      assert Live(s, other);
    }
  }

  /** A rival stays one while recovery works on the records before its victim. */
  lemma RivalStays(cfg: Config, s: State, m: Message, id: PendingID, t: State)
    requires Inv(cfg, s) && Ready(cfg, s) && Steady(cfg, s) && s.process.Recovering? && Rival(cfg, s, m, id)
    requires t == RecoveryStep(cfg, s, s.process.work, []) && !AtFront(s, id)
    ensures Rival(cfg, t, m, id)
  {
    StepWorld(cfg, s, [], t);
    if s.process.work.RecoverWait? && s.process.work.queue[0].id.scope == id.scope
       && Live(s, s.process.work.queue[0].id) {
      FrontIsFirst(s, s.process.work.queue, id);
      assert false;
    }
    RivalCarries(cfg, s, m, id, t);
  }

  lemma RivalKeepsGoing(cfg: Config, s: State, m: Message, id: PendingID, t: State)
    requires Course(cfg, s) && s.process.Recovering? && !s.process.work.RecoverList? && Rival(cfg, s, m, id)
    requires t == Do(cfg, s, Recover([], 0)) && !AtFront(s, id)
    ensures Course(cfg, t) && t.process.Recovering? && !t.process.work.RecoverList? && Rival(cfg, t, m, id)
    ensures StepsLeft(t.process.work) < StepsLeft(s.process.work)
  {
    CourseStep(cfg, s, [], 0);
    CourseIsSteady(cfg, s);
    RivalStays(cfg, s, m, id, t);
  }

  ghost predicate CanFail(cfg: Config, s: State) {
    exists events :: AllInRecovery(events) && IsRun(cfg, s, events) && Failures(cfg, s, events) > 0
  }

  lemma FailCons(cfg: Config, s: State, e: Event, t: State, rest: seq<Event>)
    requires Enabled(s, e) && t == Do(cfg, s, e) && IsRun(cfg, t, rest)
    ensures IsRun(cfg, s, [e] + rest)
    ensures Failures(cfg, s, [e] + rest) == (if Fails(cfg, s, e) then 1 else 0) + Failures(cfg, t, rest)
  {
    assert ([e] + rest)[1..] == rest;
  }

  lemma CanFailBefore(cfg: Config, s: State, e: Event, t: State)
    requires InRecovery(e) && Enabled(s, e) && t == Do(cfg, s, e) && CanFail(cfg, t)
    ensures CanFail(cfg, s)
  {
    var rest :| AllInRecovery(rest) && IsRun(cfg, t, rest) && Failures(cfg, t, rest) > 0;
    FailCons(cfg, s, e, t, rest);
    assert AllInRecovery([e] + rest);
  }

  lemma CanFailNow(cfg: Config, s: State, e: Event)
    requires InRecovery(e) && Enabled(s, e) && Fails(cfg, s, e)
    ensures CanFail(cfg, s)
  {
    FailCons(cfg, s, e, Do(cfg, s, e), []);
    assert AllInRecovery([e] + []);
  }

  /** Once the rival is in, asking fails. */
  lemma RivalIn(cfg: Config, s: State, m: Message, id: PendingID, queue: seq<Entry>, b: State)
    requires Inv(cfg, s) && Ready(cfg, s) && Rival(cfg, s, m, id) && s.process == Recovering(RecoverWait(queue))
    requires queue != [] && queue[0].id == id && b == Do(cfg, s, HandleOrphan(m))
    ensures CanFail(cfg, b)
  {
    WaitedFor(cfg, s, queue);
    RivalInstalls(cfg, s, m, id);
    WaitStepIs(cfg, b, queue, RecoveryStep(cfg, b, RecoverWait(queue), []));
    CanFailNow(cfg, b, Recover([], 0));
  }

  /** Read, let the rival in, ask: the attempt fails. */
  lemma RivalStrikes(cfg: Config, s: State, m: Message, id: PendingID, queue: seq<Entry>)
    requires Inv(cfg, s) && Ready(cfg, s) && Rival(cfg, s, m, id)
    requires s.process == Recovering(RecoverRead(queue)) && queue != [] && queue[0].id == id
    ensures CanFail(cfg, s)
  {
    Parts(cfg, s);
    SoundParts(cfg, s);
    assert s.store.pending[id] == queue[0].record && queue[0].record.value.ID() == id;
    var a := s.(process := Recovering(RecoverWait(queue)));
    assert Do(cfg, s, Recover([], 0)) == a;
    EventKeeps(cfg, s, Recover([], 0));
    ReadyElsewhere(cfg, s, a);
    RivalCarries(cfg, s, m, id, a);
    RivalIn(cfg, a, m, id, queue, Do(cfg, a, HandleOrphan(m)));
    CanFailBefore(cfg, a, HandleOrphan(m), Do(cfg, a, HandleOrphan(m)));
    CanFailBefore(cfg, s, Recover([], 0), a);
  }

  /** A record is read before it is waited for. */
  lemma NotSkipped(cfg: Config, s: State, id: PendingID, t: State)
    requires s.process.Recovering? && !AtFront(s, id) && t == RecoveryStep(cfg, s, s.process.work, [])
    ensures AtFront(t, id) ==> t.process.work.RecoverRead?
  {}

  lemma CourseIsSteady(cfg: Config, s: State)
    requires Course(cfg, s)
    ensures Steady(cfg, s)
  {}

  /** Recovery comes to the record a rival competes with. */
  lemma {:induction false} Toward(cfg: Config, s: State, m: Message, id: PendingID)
    requires Course(cfg, s) && s.process.Recovering? && !s.process.work.RecoverList? && Rival(cfg, s, m, id)
    requires AtFront(s, id) ==> s.process.work.RecoverRead?
    ensures CanFail(cfg, s)
    decreases StepsLeft(s.process.work)
  {
    if AtFront(s, id) {
      RivalStrikes(cfg, s, m, id, s.process.work.queue);
    } else {
      var t := Do(cfg, s, Recover([], 0));
      RivalKeepsGoing(cfg, s, m, id, t);
      NotSkipped(cfg, s, id, t);
      Toward(cfg, t, m, id);
      CanFailBefore(cfg, s, Recover([], 0), t);
    }
  }

  lemma RivalsCanFail(cfg: Config, s: State, m: Message, id: PendingID)
    requires Course(cfg, s) && s.process.Down? && Rival(cfg, s, m, id)
    ensures CanFail(cfg, s)
  {
    ListingExists(s.store.pending);
    var queue :| IsListing(queue, s.store.pending);
    Restarted(cfg, s, queue);
    var a := s.(process := Recovering(RecoverList));
    var b := s.(process := Recovering(RecoverRead(queue)));
    RivalCarries(cfg, s, m, id, b);
    Toward(cfg, b, m, id);
    CanFailBefore(cfg, a, Recover(queue, 0), b);
    CanFailBefore(cfg, s, Restart, a);
  }

  lemma CalmAtFirst(cfg: Config, s: State)
    requires Inv(cfg, s) && s.process.Down? && Ready(cfg, s) && NoRivals(cfg, s)
    ensures Calm(cfg, s.core, s)
  {
    forall id | id in s.store.pending
      ensures s.store.pending[id].value.expected <= CoreAt(s.core, id.scope).revision
    {
      assert IsReady(cfg, s, id);
    }
  }

  /** Recovery can be relied on, whatever else happens meanwhile, exactly if no stranded request
      competes with the first record that asks for Core's next revision in its scope. */
  lemma NeverFailsIffNoRivals(cfg: Config, s: State)
    requires Reachable(cfg, s) && s.process.Down? && Ready(cfg, s)
    ensures NoRivals(cfg, s) <==>
              forall events :: AllInRecovery(events) && IsRun(cfg, s, events) ==> Failures(cfg, s, events) == 0
  {
    ReachableInv(cfg, s);
    if NoRivals(cfg, s) {
      forall events | AllInRecovery(events) && IsRun(cfg, s, events)
        ensures Failures(cfg, s, events) == 0
      {
        CalmAtFirst(cfg, s);
        CalmRun(cfg, s.core, s, events);
      }
    } else {
      var m, id :| Rival(cfg, s, m, id);
      RivalsCanFail(cfg, s, m, id);
    }
  }

  /** All records of a scope that ask for Core's next revision ask for rules with the same hash. */
  ghost predicate AgreeOnNext(cfg: Config, s: State) {
    forall a, b :: Live(s, a) && Live(s, b) && a.scope == b.scope ==>
      cfg.hash(s.store.pending[a].value.rules) == cfg.hash(s.store.pending[b].value.rules)
  }

  /** A rival stands for a live record of the same scope. */
  lemma RivalIsLive(cfg: Config, s: State, m: Message, id: PendingID)
    requires Inv(cfg, s) && Rival(cfg, s, m, id)
    ensures Live(s, m.id) && s.store.pending[m.id].value.rules == m.rules && m.id.scope == id.scope
  {
    Parts(cfg, s);
    SoundParts(cfg, s);
    assert Covered(s, m);
  }

  lemma AgreementExcludesRivals(cfg: Config, s: State)
    requires Inv(cfg, s) && AgreeOnNext(cfg, s)
    ensures NoRivals(cfg, s)
  {
    forall m, id
      ensures !Rival(cfg, s, m, id)
    {
      if Rival(cfg, s, m, id) {
        RivalIsLive(cfg, s, m, id);
      }
    }
  }

  /** What can be read off the store and Core before a start, without knowing which requests are
      still under way: if the records agree, nothing that is under way can make recovery fail. */
  lemma AgreementIsEnough(cfg: Config, s: State)
    requires Reachable(cfg, s) && s.process.Down? && Ready(cfg, s) && AgreeOnNext(cfg, s)
    ensures forall events :: AllInRecovery(events) && IsRun(cfg, s, events) ==> Failures(cfg, s, events) == 0
  {
    ReachableInv(cfg, s);
    AgreementExcludesRivals(cfg, s);
    NeverFailsIffNoRivals(cfg, s);
  }

  ghost predicate LiveIn(s: State, id: PendingID, scope: Scope) { Live(s, id) && id.scope == scope }

  lemma {:induction false} LeastLive(s: State, queue: seq<Entry>, scope: Scope, i: nat, k: nat) returns (first: nat)
    requires i <= k < |queue| && LiveIn(s, queue[k].id, scope)
    requires forall j :: 0 <= j < i ==> !LiveIn(s, queue[j].id, scope)
    ensures first <= k && LiveIn(s, queue[first].id, scope)
    ensures forall j :: 0 <= j < first ==> !LiveIn(s, queue[j].id, scope)
    decreases k - i
  {
    if LiveIn(s, queue[i].id, scope) {
      first := i;
    } else {
      first := LeastLive(s, queue, scope, i + 1, k);
    }
  }

  lemma LeastIsFirst(s: State, queue: seq<Entry>, scope: Scope, i: nat)
    requires ListsAll(queue, s.store.pending) && InKeyOrder(queue) && i < |queue| && LiveIn(s, queue[i].id, scope)
    requires forall j :: 0 <= j < i ==> !LiveIn(s, queue[j].id, scope)
    ensures FirstLive(s, queue[i].id)
  {
    forall other | Live(s, other) && other.scope == scope && other != queue[i].id
      ensures Text.Less(KeyOfID(queue[i].id), KeyOfID(other))
    {
      var j :| 0 <= j < |queue| && queue[j].id == other;
      assert LiveIn(s, queue[j].id, scope);
    }
  }

  /** The first of the live records of a scope. */
  lemma FirstOfScope(s: State, id: PendingID) returns (first: PendingID)
    requires Live(s, id)
    ensures FirstLive(s, first) && first.scope == id.scope
  {
    ListingExists(s.store.pending);
    var queue: seq<Entry> :| IsListing(queue, s.store.pending);
    ListingParts(queue, s.store.pending);
    var k :| 0 <= k < |queue| && queue[k].id == id;
    var i := LeastLive(s, queue, id.scope, 0, k);
    LeastIsFirst(s, queue, id.scope, i);
    first := queue[i].id;
  }

  /** The state, had just this one request been under way when the process died. */
  ghost function With(s: State, m: Message): State { s.(orphans := multiset{m}) }

  lemma CoveredMayBeUnderWay(cfg: Config, s: State, m: Message)
    requires Inv(cfg, s) && s.process.Down? && Covered(s, m)
    ensures Inv(cfg, With(s, m))
  {
    Parts(cfg, s);
    SoundElsewhere(cfg, s, With(s, m));
    Whole(cfg, With(s, m));
  }

  lemma MayBeRival(cfg: Config, s: State, other: PendingID, first: PendingID)
    requires Live(s, other) && FirstLive(s, first) && other.scope == first.scope
    requires s.store.pending[other].value.ID() == other
    requires cfg.hash(s.store.pending[other].value.rules) != cfg.hash(s.store.pending[first].value.rules)
    ensures var m := s.store.pending[other].value.Ask(); Rival(cfg, With(s, m), m, first)
  {
    assert FirstLive(With(s, s.store.pending[other].value.Ask()), first);
  }

  lemma DisagreementHasRival(cfg: Config, s: State, a: PendingID, b: PendingID)
    requires Inv(cfg, s) && s.process.Down? && Live(s, a) && Live(s, b) && a.scope == b.scope
    requires cfg.hash(s.store.pending[a].value.rules) != cfg.hash(s.store.pending[b].value.rules)
    ensures exists m :: Covered(s, m) && !NoRivals(cfg, With(s, m))
  {
    var first := FirstOfScope(s, a);
    var hash := cfg.hash(s.store.pending[first].value.rules);
    var other := if cfg.hash(s.store.pending[a].value.rules) == hash then b else a;
    var m := s.store.pending[other].value.Ask();
    Parts(cfg, s);
    SoundParts(cfg, s);
    assert s.store.pending[other].value.ID() == other;
    MayBeRival(cfg, s, other, first);
  }

  /** And that is as much as store and Core can tell: the records agree exactly if no request is a
      rival that may be under way for all they say, being stale or backed by a record. */
  lemma AgreementIsExact(cfg: Config, s: State)
    requires Reachable(cfg, s) && s.process.Down?
    ensures AgreeOnNext(cfg, s) <==> forall m :: Covered(s, m) ==> NoRivals(cfg, With(s, m))
  {
    ReachableInv(cfg, s);
    if AgreeOnNext(cfg, s) {
      forall m | Covered(s, m)
        ensures NoRivals(cfg, With(s, m))
      {
        CoveredMayBeUnderWay(cfg, s, m);
        assert AgreeOnNext(cfg, With(s, m));
        AgreementExcludesRivals(cfg, With(s, m));
      }
    } else {
      var a, b :| Live(s, a) && Live(s, b) && a.scope == b.scope
        && cfg.hash(s.store.pending[a].value.rules) != cfg.hash(s.store.pending[b].value.rules);
      DisagreementHasRival(cfg, s, a, b);
    }
  }

  // ---- The smallest case ----

  lemma {:induction false} RunSnoc(cfg: Config, s: State, events: seq<Event>, e: Event, t: State)
    requires IsRun(cfg, s, events) && Enabled(After(cfg, s, events), e) && t == Do(cfg, After(cfg, s, events), e)
    ensures IsRun(cfg, s, events + [e]) && After(cfg, s, events + [e]) == t
    decreases |events|
  {
    if events == [] {
      assert [e][1..] == [] && IsRun(cfg, t, []);
    } else {
      RunSnoc(cfg, Do(cfg, s, events[0]), events[1..], e, t);
      RunCons(cfg, s, events[0], events[1..] + [e]);
      assert [events[0]] + (events[1..] + [e]) == events + [e];
    }
  }

  lemma ReachableStep(cfg: Config, s: State, e: Event, t: State)
    requires Reachable(cfg, s) && Enabled(s, e) && t == Do(cfg, s, e)
    ensures Reachable(cfg, t)
  {
    var start, events := HistoryOf(cfg, s);
    RunSnoc(cfg, start, events, e, t);
    RunReaches(cfg, start, events + [e], t);
  }

  /** A new process with nothing pending serves at once. */
  lemma Opens(cfg: Config, s: State)
    requires Reachable(cfg, s) && s.process == Down && s.store.pending == map[]
    ensures Reachable(cfg, s.(process := Serving(map[])))
  {
    var listing := s.(process := Recovering(RecoverList));
    var reading := s.(process := Recovering(RecoverRead([])));
    ReachableStep(cfg, s, Restart, listing);
    ReachableStep(cfg, listing, Recover([], 0), reading);
    ReachableStep(cfg, reading, Recover([], 0), s.(process := Serving(map[])));
  }

  /** A call writes its intent and sends its request. */
  lemma Sends(cfg: Config, s: State, calls: map<nat, Call>, c: nat, p: Pending, t: State)
    requires Reachable(cfg, s) && s.process == Serving(calls) && c !in calls
    requires p.requestID != "" && p.target == p.expected + 1 && NotInFlight(s, calls, p)
    requires p.ID() !in s.store.pending
    requires t == s.(store := s.store.(pending := s.store.pending[p.ID() := Versioned(p, 1)]),
                     process := Serving(calls[c := ApplyWait(p, 1)]))
    ensures Reachable(cfg, t)
  {
    var begun := s.(process := Serving(calls[c := ApplyPut(p)]));
    ReachableStep(cfg, s, BeginApply(c, p), begun);
    SendsOn(cfg, begun, calls, c, p, t);
  }

  lemma AdvanceIs(cfg: Config, s: State, calls: map<nat, Call>, c: nat, call: Call, t: State, next: Call)
    requires s.process == Serving(calls[c := call]) && !IsOver(call)
    requires CallStep(cfg, s, call, 0) == (t.(process := s.process), next) && t.process == Serving(calls[c := next])
    ensures Enabled(s, Advance(c, 0)) && Do(cfg, s, Advance(c, 0)) == t
  {
    assert calls[c := call][c := next] == calls[c := next];
  }

  lemma PutStep(cfg: Config, s: State, p: Pending, t: State)
    requires p.ID() !in s.store.pending
    requires t == s.(store := s.store.(pending := s.store.pending[p.ID() := Versioned(p, 1)]))
    ensures CallStep(cfg, s, ApplyPut(p), 0) == (t, ApplySend(p, 1))
  {}

  lemma SendsOn(cfg: Config, s: State, calls: map<nat, Call>, c: nat, p: Pending, t: State)
    requires Reachable(cfg, s) && s.process == Serving(calls[c := ApplyPut(p)]) && p.ID() !in s.store.pending
    requires t == s.(store := s.store.(pending := s.store.pending[p.ID() := Versioned(p, 1)]),
                     process := Serving(calls[c := ApplyWait(p, 1)]))
    ensures Reachable(cfg, t)
  {
    var put := t.(process := Serving(calls[c := ApplySend(p, 1)]));
    PutStep(cfg, s, p, put.(process := s.process));
    AdvanceIs(cfg, s, calls, c, ApplyPut(p), put, ApplySend(p, 1));
    ReachableStep(cfg, s, Advance(c, 0), put);
    SendStep(cfg, put, calls, c, p, t);
  }

  lemma SendStep(cfg: Config, s: State, calls: map<nat, Call>, c: nat, p: Pending, t: State)
    requires Reachable(cfg, s) && s.process == Serving(calls[c := ApplySend(p, 1)])
    requires t == s.(process := Serving(calls[c := ApplyWait(p, 1)]))
    ensures Reachable(cfg, t)
  {
    AdvanceIs(cfg, s, calls, c, ApplySend(p, 1), t, ApplyWait(p, 1));
    ReachableStep(cfg, s, Advance(c, 0), t);
  }

  const HERE: Scope := Scope("acme", "orders")
  const FIRST: Pending := Pending(HERE, 0, 1, [], "ada", "a", 0)
  const SECOND: Pending := Pending(HERE, 0, 1, [Rule("note", "true", "true")], "bob", "b", 0)
  const ANY_RULES: Config := Config(rules => if rules == [] then "none" else "some", (scope, rules) => true)

  /** Core is new, and nothing is recorded yet. */
  ghost function Early(pending: map<PendingID, Versioned<Pending>>, orphans: multiset<Message>,
                       process: Process): State {
    State(map[], Store(map[], map[], pending), orphans, process, map[], map[])
  }

  const ONE: map<PendingID, Versioned<Pending>> := map[FIRST.ID() := Versioned(FIRST, 1)]
  const BOTH: map<PendingID, Versioned<Pending>> := ONE[SECOND.ID() := Versioned(SECOND, 1)]
  const LISTING: seq<Entry> := [Entry(FIRST.ID(), Versioned(FIRST, 1)), Entry(SECOND.ID(), Versioned(SECOND, 1))]

  /** Two Applies that both expect revision 0 were sent when the process died. */
  ghost function BothSent(): State { Early(BOTH, multiset{FIRST.Ask(), SECOND.Ask()}, Down) }

  lemma FirstIsSent()
    ensures Reachable(ANY_RULES, Early(ONE, multiset{}, Serving(map[0 := ApplyWait(FIRST, 1)])))
  {
    var s := Early(map[], multiset{}, Down);
    assert IsRun(ANY_RULES, s, []) && After(ANY_RULES, s, []) == s;
    RunReaches(ANY_RULES, s, [], s);
    Opens(ANY_RULES, s);
    Sends(ANY_RULES, s.(process := Serving(map[])), map[], 0, FIRST,
          Early(ONE, multiset{}, Serving(map[0 := ApplyWait(FIRST, 1)])));
  }

  const SENT: map<nat, Call> := map[0 := ApplyWait(FIRST, 1), 1 := ApplyWait(SECOND, 1)]

  lemma SecondIsSent()
    ensures Reachable(ANY_RULES, Early(BOTH, multiset{}, Serving(SENT)))
  {
    FirstIsSent();
    var calls := map[0 := ApplyWait(FIRST, 1)];
    assert SENT == calls[1 := ApplyWait(SECOND, 1)];
    var s := Early(ONE, multiset{}, Serving(calls));
    assert NotInFlight(s, calls, SECOND);
    Sends(ANY_RULES, s, calls, 1, SECOND, Early(BOTH, multiset{}, Serving(SENT)));
  }

  lemma BothAreSent()
    ensures Reachable(ANY_RULES, BothSent())
  {
    SecondIsSent();
    BothStranded(SENT);
    var s := Early(BOTH, multiset{}, Serving(SENT));
    assert CrashOrphans(s) == multiset{FIRST.Ask(), SECOND.Ask()};
    ReachableStep(ANY_RULES, s, Crash, BothSent());
  }

  lemma BothStranded(calls: map<nat, Call>)
    requires calls == map[0 := ApplyWait(FIRST, 1), 1 := ApplyWait(SECOND, 1)]
    ensures multiset(Asked(calls)) == multiset{FIRST.Ask(), SECOND.Ask()}
  {
    assert 0 in calls && 1 in calls;
    assert Asked(calls) == {FIRST.Ask(), SECOND.Ask()};
  }

  lemma BothListed()
    ensures IsListing(LISTING, BOTH)
  {
    Text.LessPrefix(ScopeKey(HERE) + "/", "a", "b");
    assert LISTING[0].id == FIRST.ID() && LISTING[1].id == SECOND.ID();
  }

  /** What happens between the read and the ask. */
  lemma SecondGetsIn(s: State)
    requires s == Early(BOTH, multiset{FIRST.Ask(), SECOND.Ask()}, Recovering(RecoverWait(LISTING)))
    ensures var events := [HandleOrphan(SECOND.Ask()), Recover([], 0)];
            IsRun(ANY_RULES, s, events) && After(ANY_RULES, s, events).process == Down
  {
    var a := Do(ANY_RULES, s, HandleOrphan(SECOND.Ask()));
    var b := Do(ANY_RULES, a, Recover([], 0));
    assert CoreAt(a.core, HERE) == RuleSet(1, "some", SECOND.rules);
    WaitStepIs(ANY_RULES, a, LISTING, b);
    RunCons(ANY_RULES, a, Recover([], 0), []);
    RunCons(ANY_RULES, s, HandleOrphan(SECOND.Ask()), [Recover([], 0)]);
  }

  lemma BothAreRead(s: State)
    requires s == Early(BOTH, multiset{FIRST.Ask(), SECOND.Ask()}, Recovering(RecoverRead(LISTING)))
    ensures var events := [Recover([], 0), HandleOrphan(SECOND.Ask()), Recover([], 0)];
            IsRun(ANY_RULES, s, events) && After(ANY_RULES, s, events).process == Down
  {
    var t := s.(process := Recovering(RecoverWait(LISTING)));
    SecondGetsIn(t);
    assert Do(ANY_RULES, s, Recover([], 0)) == t;
    RunCons(ANY_RULES, s, Recover([], 0), [HandleOrphan(SECOND.Ask()), Recover([], 0)]);
  }

  lemma BothAreRecovered(s: State)
    requires s == BothSent()
    ensures var events := [Restart, Recover(LISTING, 0), Recover([], 0), HandleOrphan(SECOND.Ask()), Recover([], 0)];
            IsRun(ANY_RULES, s, events) && After(ANY_RULES, s, events).process == Down
  {
    BothListed();
    var late := [Recover([], 0), HandleOrphan(SECOND.Ask()), Recover([], 0)];
    BothAreRead(s.(process := Recovering(RecoverRead(LISTING))));
    RunCons(ANY_RULES, s.(process := Recovering(RecoverList)), Recover(LISTING, 0), late);
    RunCons(ANY_RULES, s, Restart, [Recover(LISTING, 0)] + late);
  }

  /** Recovery lists both, finds the first next in line and is overtaken by the second's late
      request before it asks: Core refuses the first, and the process gives up. */
  lemma LateRequestStopsRecovery()
    ensures var s := BothSent();
            var events := [Restart, Recover(LISTING, 0), Recover([], 0), HandleOrphan(SECOND.Ask()), Recover([], 0)];
            && Reachable(ANY_RULES, s) && s.process == Down && Ready(ANY_RULES, s)
            && IsRun(ANY_RULES, s, events) && After(ANY_RULES, s, events).process == Down
  {
    BothAreSent();
    BothAreRecovered(BothSent());
  }
}
