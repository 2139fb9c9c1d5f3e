/** What a successful Apply means to its caller: the rules recorded at the returned revision are
    the ones asked for. */
module SyncRequests {
  import opened Results
  import opened Keys
  import opened Table
  import opened SyncProtocol
  import opened SyncSafety

  /** The revision that a call wants recorded, if it got that far. */
  ghost predicate Wants(cfg: Config, p: Pending, scope: Scope, revision: nat, hash: string) {
    scope == p.scope && revision == p.target && hash == cfg.hash(p.rules)
  }

  /** The call works on this request and nothing else. */
  ghost predicate IsFor(cfg: Config, s: State, call: Call, p: Pending) {
    match call
    case ApplyPut(q) => q == p
    case ApplyGet(q) => q == p
    case ApplySend(q, _) => q == p
    case ApplyWait(q, _) => q == p
    case ApplyForget(q, _, _) => q == p
    case FinishGet(r, _, _) => Wants(cfg, p, r.scope, r.revision, r.hash)
    case FinishForget(r, _, _) => Wants(cfg, p, r.scope, r.revision, r.hash)
    case FinishHead(r, _, _) => Wants(cfg, p, r.scope, r.revision, r.hash)
    case FinishCommit(r, _, _, _) => Wants(cfg, p, r.scope, r.revision, r.hash)
    case HeadGet(scope, revision, hash) => Wants(cfg, p, scope, revision, hash)
    case HeadPut(scope, revision, hash, _) => Wants(cfg, p, scope, revision, hash)
    case Returned(scope, revision) =>
      scope == p.scope && revision == p.target && InHistory(s, scope, revision, cfg.hash(p.rules))
    case Failed(_) => true
    case _ => false
  }

  lemma FinishIsFor(cfg: Config, s: State, call: Call, p: Pending)
    requires IsFinishing(call) && CallInv(s, call) && IsFor(cfg, s, call, p)
    ensures var (store, next) := FinishStep(s.store, call); IsFor(cfg, s.(store := store), next, p)
  {}

  lemma AnswerIsFor(cfg: Config, s: State, call: Call, p: Pending, now: nat)
    requires call.ApplyWait? && IsFor(cfg, s, call, p)
    ensures var (after, next) := CallStep(cfg, s, call, now); IsFor(cfg, after, next, p)
  {}

  lemma StepIsFor(cfg: Config, s: State, call: Call, p: Pending, now: nat)
    requires !IsOver(call) && CallInv(s, call) && IsFor(cfg, s, call, p)
    ensures var (after, next) := CallStep(cfg, s, call, now); IsFor(cfg, after, next, p)
  {
    if IsFinishing(call) {
      FinishIsFor(cfg, s, call, p);
    } else if call.ApplyWait? {
      AnswerIsFor(cfg, s, call, p, now);
    }
  }

  ghost predicate AtWork(cfg: Config, s: State, c: nat, p: Pending) {
    s.process.Serving? && c in s.process.calls && IsFor(cfg, s, s.process.calls[c], p)
  }

  lemma StillFor(cfg: Config, s: State, t: State, call: Call, p: Pending)
    requires IsFor(cfg, s, call, p) && Grows(s, t)
    ensures IsFor(cfg, t, call, p)
  {
    GrowsEverywhere(s, t);
  }

  predicate Disturbs(e: Event, c: nat) { e.Crash? || e == Abort(c) }

  lemma ElsewhereStays(cfg: Config, s: State, e: Event, c: nat)
    requires s.process.Serving? && c in s.process.calls && Enabled(s, e) && !Disturbs(e, c)
    requires e.Advance? ==> e.c != c
    ensures var t := Do(cfg, s, e);
            t.process.Serving? && c in t.process.calls && t.process.calls[c] == s.process.calls[c]
  {}

  lemma EventIsFor(cfg: Config, s: State, e: Event, c: nat, p: Pending, t: State)
    requires Inv(cfg, s) && AtWork(cfg, s, c, p) && Enabled(s, e) && !Disturbs(e, c) && t == Do(cfg, s, e)
    ensures AtWork(cfg, t, c, p)
  {
    Parts(cfg, s);
    SoundParts(cfg, s);
    if e.Advance? && e.c == c {
      AdvanceIsFor(cfg, s, c, e.now, p, t);
    } else {
      EventKeeps(cfg, s, e);
      ElsewhereStays(cfg, s, e, c);
      StillFor(cfg, s, t, s.process.calls[c], p);
    }
  }

  lemma AdvanceIsFor(cfg: Config, s: State, c: nat, now: nat, p: Pending, t: State)
    requires ProcessInv(s) && AtWork(cfg, s, c, p) && Enabled(s, Advance(c, now)) && t == Do(cfg, s, Advance(c, now))
    ensures AtWork(cfg, t, c, p)
  {
    var call := s.process.calls[c];
    assert CallInv(s, call);
    StepIsFor(cfg, s, call, p, now);
    var (after, next) := CallStep(cfg, s, call, now);
    assert t.process.calls[c] == next && t.store == after.store;
  }

  ghost predicate Undisturbed(events: seq<Event>, c: nat) {
    forall i :: 0 <= i < |events| ==> !Disturbs(events[i], c)
  }

  lemma {:induction false} RunIsFor(cfg: Config, s: State, events: seq<Event>, c: nat, p: Pending)
    requires Inv(cfg, s) && AtWork(cfg, s, c, p) && IsRun(cfg, s, events) && Undisturbed(events, c)
    ensures AtWork(cfg, After(cfg, s, events), c, p)
    decreases |events|
  {
    if events != [] {
      EventKeeps(cfg, s, events[0]);
      EventIsFor(cfg, s, events[0], c, p, Do(cfg, s, events[0]));
      RunIsFor(cfg, Do(cfg, s, events[0]), events[1..], c, p);
    }
  }

  /** If the call has returned success, it is for the revision and the rules of this request. */
  ghost predicate SucceedsFor(cfg: Config, t: State, call: Call, p: Pending) {
    var id := RevisionID(p.scope, p.target);
    call.Returned? ==>
      && call.scope == p.scope && call.revision == p.target
      && id in t.store.history && t.store.history[id].value.hash == cfg.hash(p.rules)
  }

  lemma WorkSucceedsFor(cfg: Config, t: State, c: nat, p: Pending)
    requires AtWork(cfg, t, c, p)
    ensures t.process.Serving? && c in t.process.calls && SucceedsFor(cfg, t, t.process.calls[c], p)
  {}

  lemma Begins(cfg: Config, s: State, c: nat, p: Pending, begun: State)
    requires Inv(cfg, s) && Enabled(s, BeginApply(c, p)) && begun == Do(cfg, s, BeginApply(c, p))
    ensures Inv(cfg, begun) && AtWork(cfg, begun, c, p)
  {
    EventKeeps(cfg, s, BeginApply(c, p));
  }

  /** Success is for the request: whatever happens between the call and its return, the revision it
      returns is the one asked for, and the history records it with the hash of the caller's rules. */
  lemma SuccessIsForTheRequest(cfg: Config, s: State, c: nat, p: Pending, begun: State, events: seq<Event>)
    requires Reachable(cfg, s) && Enabled(s, BeginApply(c, p)) && begun == Do(cfg, s, BeginApply(c, p))
    requires IsRun(cfg, begun, events) && Undisturbed(events, c)
    ensures var t := After(cfg, begun, events);
            t.process.Serving? && c in t.process.calls && SucceedsFor(cfg, t, t.process.calls[c], p)
  {
    ReachableInv(cfg, s);
    Begins(cfg, s, c, p, begun);
    RunIsFor(cfg, begun, events, c, p);
    WorkSucceedsFor(cfg, After(cfg, begun, events), c, p);
  }

  // ---- Several requests under one ID ----

  /** While one call is at work on a record, another Apply under its ID changes nothing and can only
      find out that the ID is taken. */
  lemma SecondIsRefused(cfg: Config, s: State, c: nat, d: nat, now: nat, t: State)
    requires Reachable(cfg, s) && s.process.Serving? && c in s.process.calls && d in s.process.calls
    requires var first, second := s.process.calls[d], s.process.calls[c];
             IsOwner(first) && IsTentative(second) && RecordOf(first) == RecordOf(second)
    requires t == Do(cfg, s, Advance(c, now))
    ensures t == s.(process := t.process) && t.process.Serving? && c in t.process.calls
    ensures var second := s.process.calls[c];
            t.process.calls[c] == if second.ApplyPut? then ApplyGet(second.p) else Failed(Conflict)
  {
    ReachableInv(cfg, s);
    Parts(cfg, s);
    OwnersAreRecorded(s, s.process.calls[d]);
    assert !IsOnRecord(s, s.process.calls[c].p);
  }

  /** A request still on its way to Core has its intent on record, or Core will ignore it. */
  lemma LateIsBackedOrIgnored(cfg: Config, s: State, m: Message)
    requires Reachable(cfg, s) && m in s.orphans
    ensures if m.target > CoreAt(s.core, m.id.scope).revision then Backed(s, m) else Handle(cfg, s, m) == s
  {
    ReachableInv(cfg, s);
    Parts(cfg, s);
    SoundParts(cfg, s);
    assert Covered(s, m);
  }
}
