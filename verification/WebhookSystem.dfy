/** The webhook pipeline as a state machine: one dispatcher, any number of service calls, a feed
    that grows and a clock that advances. Every store operation and every exchange with a
    receiver is one step, and the process may die between any two. */
module WebhookSystem {
  import opened Results
  import opened Keys
  import opened Table
  import opened WebhookModel

  // ---- Service calls ----

  /** What a caller says about a webhook. */
  datatype Registration = Registration(scope: Scope, url: string, events: seq<string>, objectTypes: seq<string>,
                                       lookups: string, source: string, limits: string)

  datatype Request =
    | Register(id: string, registration: Registration, secret: string)
    | Update(id: string, registration: Registration)
    | RotateSecret(id: string, secret: string)
    | Disable(id: string)
    | Replay(id: string)

  /** A service call in progress: it has read the webhook, then its active revision, or it walks a listing. */
  datatype Client =
    | HasHook(request: Request, hook: Versioned<Hook>)
    | HasRevision(request: Request, hook: Versioned<Hook>, prior: HookRevision)
    | Replaying(request: Request, entries: seq<Entry>)

  // ---- The dispatcher ----

  /** A poll: the cursor version it holds, the events it still has to process and where they are
      in the feed, and for the first of them the listed webhooks and how many are done. */
  datatype Poll = Poll(scope: Scope, version: nat, at: nat, events: seq<Event>, listed: seq<Hook>, next: nat)

  datatype Drain = Drain(entries: seq<Entry>, delivered: nat, limit: nat)

  datatype Work =
    | Resting
    | HasCursor(scope: Scope, cursor: nat, version: nat)
    | AtEvent(poll: Poll)
    | AtHook(poll: Poll)
    | AtMaterialization(poll: Poll, revision: HookRevision)
    | AtMissing(poll: Poll, revision: HookRevision)
    | AtReload(poll: Poll, revision: HookRevision)
    | AtTransform(poll: Poll, revision: HookRevision, record: Versioned<Materialization>)
    | AtDelivery(poll: Poll, delivery: Delivery)
    | Draining(drain: Drain)
    | Sent(drain: Drain)
    | Replied(drain: Drain, response: Response, at: nat)

  /** Where the feed of a scope has been processed to. */
  datatype Mark = Mark(scope: Scope, cursor: nat)

  /** What happened to one delivery so far: requests sent, attempts recorded, sent requests whose
      outcome was lost, replays, and when the first and the last failure of the current series
      were noted. Bookkeeping of the model, invisible to the code. */
  datatype Tally = Tally(posts: nat, recorded: nat, lost: nat, replays: nat, firstFailure: nat, lastFailure: nat)

  /** passed remembers which webhooks the poll had listed that moved the cursor over an event. */
  datatype State = State(now: nat, feed: map<Scope, seq<Event>>, store: Store, work: Work, clients: map<nat, Client>,
                         passed: map<Mark, seq<Hook>>, tallies: map<JobID, Tally>)

  /** What a step of the dispatcher learns from outside, or from a listing of the store. */
  datatype Input =
    | Nothing
    | StartPoll(scope: Scope)
    | StartDrain(entries: seq<Entry>, limit: int)
    | Hooks(hooks: seq<Hook>)
    | Context(context: string)
    | Ran(outcome: Outcome)
    | Reply(response: Response)

  datatype Step =
    | Dispatch(input: Input)
    | GiveUp                                      // any error the dispatcher reports: it rests and starts again
    | Call(client: nat, request: Request)
    | Continue(client: nat, entries: seq<Entry>)
    | Abandon(client: nat)
    | Crash
    | Tick(later: nat)
    | Publish(event: Event)

  // ---- Pieces of state ----

  function FeedOf(feed: map<Scope, seq<Event>>, scope: Scope): seq<Event> {
    if scope in feed then feed[scope] else []
  }

  function CursorOf(store: Store, scope: Scope): nat {
    if scope in store.cursors then store.cursors[scope].value else 0
  }

  function TallyOf(tallies: map<JobID, Tally>, job: JobID): Tally {
    if job in tallies then tallies[job] else Tally(0, 0, 0, 0, 0, 0)
  }

  /** Compare-and-swap: version 0 means that there must be no record. */
  predicate Expects<K, V>(t: map<K, Versioned<V>>, k: K, version: nat) {
    if version == 0 then k !in t else k in t && t[k].version == version
  }

  /** The index of the first event after a cursor. */
  function FirstAfter(events: seq<Event>, cursor: nat): nat {
    if events == [] || events[0].cursor > cursor then 0 else 1 + FirstAfter(events[1..], cursor)
  }

  const PAGE: nat := 100

  function EndOfPage(events: seq<Event>, from: nat): nat {
    if from + PAGE <= |events| then from + PAGE else |events|
  }

  function HookAt(poll: Poll): Hook
    requires poll.next < |poll.listed|
  {
    poll.listed[poll.next]
  }

  function JobAt(poll: Poll): JobID
    requires poll.events != [] && poll.next < |poll.listed|
  {
    JobOf(HookAt(poll), poll.events[0])
  }

  predicate AtOneHook(poll: Poll) { poll.events != [] && poll.next < |poll.listed| }

  // ---- Dispatcher steps ----

  /** The request in flight, if any, will never be recorded. */
  function DropWork(s: State): State {
    var rested := s.(work := Resting);
    if (s.work.Sent? || s.work.Replied?) && s.work.drain.entries != [] then
      var job := s.work.drain.entries[0].job;
      var tally := TallyOf(s.tallies, job);
      rested.(tallies := s.tallies[job := tally.(lost := tally.lost + 1)])
    else rested
  }

  function NextHook(s: State, poll: Poll): State { s.(work := AtHook(poll.(next := poll.next + 1))) }

  function SaveCursor(s: State, poll: Poll): State
    requires poll.events != []
  {
    var event := poll.events[0];
    if !Expects(s.store.cursors, poll.scope, poll.version) then s.(work := Resting)
    else
      s.(store := s.store.(cursors := s.store.cursors[poll.scope := Versioned(event.cursor, poll.version + 1)]),
         passed := s.passed[Mark(poll.scope, event.cursor) := poll.listed],
         work := AtEvent(Poll(poll.scope, poll.version + 1, poll.at + 1, poll.events[1..], [], 0)))
  }

  /** Go on with a materialization that is on record. */
  function Proceed(s: State, poll: Poll, revision: HookRevision, record: Versioned<Materialization>): State
    requires AtOneHook(poll)
  {
    if record.value.status.Stored? then s.(work := AtTransform(poll, revision, record))
    else if record.value.status.Skipped? then NextHook(s, poll)
    else s.(work := AtDelivery(poll, DeliveryFor(HookAt(poll), record.value, s.now)))
  }

  function LookAtHook(s: State, poll: Poll): State
    requires AtOneHook(poll)
  {
    var hook := HookAt(poll);
    var id := RevisionID(hook.id, hook.activeRevision);
    if !Matches(hook, poll.events[0]) then NextHook(s, poll)
    else if id !in s.store.revisions then s.(work := Resting)
    else s.(work := AtMaterialization(poll, s.store.revisions[id].value))
  }

  function StoreMaterialization(s: State, poll: Poll, revision: HookRevision, context: string): State
    requires AtOneHook(poll)
  {
    var job := JobAt(poll);
    if job in s.store.mats then s.(work := AtReload(poll, revision))
    else
      var record := Versioned(NewMaterialization(context), 1);
      s.(store := s.store.(mats := s.store.mats[job := record]), work := AtTransform(poll, revision, record))
  }

  function SettleMaterialization(s: State, poll: Poll, record: Versioned<Materialization>, outcome: Outcome): State
    requires AtOneHook(poll)
  {
    var job := JobAt(poll);
    var m := Transformed(record.value, outcome);
    if !Expects(s.store.mats, job, record.version) then s.(work := Resting)
    else
      var t := s.(store := s.store.(mats := s.store.mats[job := Versioned(m, record.version + 1)]));
      if m.status.Skipped? then NextHook(t, poll)
      else t.(work := AtDelivery(poll, DeliveryFor(HookAt(poll), m, s.now)))
  }

  function CreateDelivery(s: State, poll: Poll, d: Delivery): State
    requires AtOneHook(poll)
  {
    var job := JobAt(poll);
    if job in s.store.deliveries then NextHook(s, poll)
    else NextHook(s.(store := s.store.(deliveries := s.store.deliveries[job := Versioned(d, 1)])), poll)
  }

  function SkipEntry(s: State, drain: Drain): State
    requires drain.entries != []
  {
    s.(work := Draining(drain.(entries := drain.entries[1..])))
  }

  /** Look at the next listed delivery; when it is due, send it. */
  function LookAtDelivery(s: State, drain: Drain): State {
    if drain.entries == [] || drain.delivered == drain.limit then s.(work := Resting)
    else
      var e := drain.entries[0];
      if !IsDue(e.record.value, s.now) then SkipEntry(s, drain)
      else if RevisionID(e.job.hookID, e.job.revision) !in s.store.revisions then s.(work := Resting)
      else
        var tally := TallyOf(s.tallies, e.job);
        s.(work := Sent(drain), tallies := s.tallies[e.job := tally.(posts := tally.posts + 1)])
  }

  /** The tally after an attempt on d that ended at the given time has been recorded. */
  function Noted(tally: Tally, d: Delivery, tried: Delivery, at: nat): Tally {
    if tried.status.Completed? then tally.(recorded := tally.recorded + 1)
    else tally.(recorded := tally.recorded + 1, lastFailure := at,
                firstFailure := if d.attempts == 0 then at else tally.firstFailure)
  }

  function RecordAttempt(s: State, drain: Drain, response: Response, at: nat): State
    requires drain.entries != []
  {
    var e := drain.entries[0];
    if !Expects(s.store.deliveries, e.job, e.record.version) then DropWork(s)
    else
      var tried := Attempted(e.record.value, response, at);
      s.(store := s.store.(deliveries := s.store.deliveries[e.job := Versioned(tried, e.record.version + 1)]),
         tallies := s.tallies[e.job := Noted(TallyOf(s.tallies, e.job), e.record.value, tried, at)],
         work := Draining(Drain(drain.entries[1..], drain.delivered + 1, drain.limit)))
  }

  function DispatchStep(s: State, input: Input): State {
    match s.work
    case Resting =>
      if input.StartPoll? then
        s.(work := HasCursor(input.scope, CursorOf(s.store, input.scope), VersionOf(s.store.cursors, input.scope)))
      else if input.StartDrain? then
        s.(work := Draining(Drain(input.entries, 0, if input.limit <= 0 then 100 else input.limit)))
      else s
    case HasCursor(scope, cursor, version) =>
      var events := FeedOf(s.feed, scope);
      var from := FirstAfter(events, cursor);
      if from > |events| then s
      else s.(work := AtEvent(Poll(scope, version, from, events[from..EndOfPage(events, from)], [], 0)))
    case AtEvent(poll) =>
      if poll.events == [] then s.(work := Resting)
      else if input.Hooks? then s.(work := AtHook(poll.(listed := input.hooks, next := 0)))
      else s
    case AtHook(poll) =>
      if poll.events == [] then s
      else if poll.next >= |poll.listed| then SaveCursor(s, poll)
      else LookAtHook(s, poll)
    case AtMaterialization(poll, revision) =>
      if !AtOneHook(poll) then s
      else if JobAt(poll) in s.store.mats then Proceed(s, poll, revision, s.store.mats[JobAt(poll)])
      else s.(work := AtMissing(poll, revision))
    case AtMissing(poll, revision) =>
      if !AtOneHook(poll) || !input.Context? then s else StoreMaterialization(s, poll, revision, input.context)
    case AtReload(poll, revision) =>
      if !AtOneHook(poll) then s
      else if JobAt(poll) !in s.store.mats then s.(work := Resting)
      else Proceed(s, poll, revision, s.store.mats[JobAt(poll)])
    case AtTransform(poll, revision, record) =>
      if !AtOneHook(poll) || !input.Ran? then s else SettleMaterialization(s, poll, record, input.outcome)
    case AtDelivery(poll, d) =>
      if !AtOneHook(poll) then s else CreateDelivery(s, poll, d)
    case Draining(drain) => LookAtDelivery(s, drain)
    case Sent(drain) =>
      if input.Reply? then s.(work := Replied(drain, input.response, s.now)) else s
    case Replied(drain, response, at) =>
      if drain.entries == [] then s else RecordAttempt(s, drain, response, at)
  }

  // ---- Steps of the service calls ----

  function Finish(s: State, c: nat): State { s.(clients := s.clients - {c}) }

  function NewHook(id: string, r: Registration): Hook {
    Hook(id, r.scope, r.url, r.events, r.objectTypes, r.lookups, 1, true)
  }

  /** Webhook and first revision in one transaction that requires both to be new. */
  function RegisterStep(s: State, id: string, r: Registration, secret: string): State {
    var first := RevisionID(id, 1);
    if id in s.store.hooks || first in s.store.revisions then s
    else
      s.(store := s.store.(hooks := s.store.hooks[id := Versioned(NewHook(id, r), 1)],
                           revisions :=
                             s.store.revisions[first := Versioned(HookRevision(id, 1, r.source, r.limits, secret), 1)]))
  }

  function CallStep(s: State, c: nat, request: Request): State {
    if c in s.clients then s
    else if request.Register? then RegisterStep(s, request.id, request.registration, request.secret)
    else if request.id !in s.store.hooks then s
    else s.(clients := s.clients[c := HasHook(request, s.store.hooks[request.id])])
  }

  /** The webhook and the revision that an update or a rotation writes. */
  function Edited(request: Request, hook: Hook, prior: HookRevision): (Hook, HookRevision)
    requires request.Update? || request.RotateSecret?
  {
    var number := hook.activeRevision + 1;
    if request.Update? then
      var r := request.registration;
      (Hook(hook.id, r.scope, r.url, r.events, r.objectTypes, r.lookups, number, true),
       HookRevision(request.id, number, r.source, r.limits, prior.secret))
    else (hook.(activeRevision := number), prior.(number := number, secret := request.secret))
  }

  /** New revision and changed webhook in one transaction: the revision must be new, the webhook as it was read. */
  function CommitEdit(s: State, c: nat, request: Request, hook: Versioned<Hook>, prior: HookRevision): State
    requires request.Update? || request.RotateSecret?
  {
    var (changed, revision) := Edited(request, hook.value, prior);
    var id := RevisionID(request.id, revision.number);
    if id in s.store.revisions || !Expects(s.store.hooks, request.id, hook.version) then Finish(s, c)
    else
      Finish(s.(store := s.store.(hooks := s.store.hooks[request.id := Versioned(changed, hook.version + 1)],
                                  revisions := s.store.revisions[id := Versioned(revision, 1)])), c)
  }

  function CommitDisable(s: State, c: nat, id: string, hook: Versioned<Hook>): State {
    if !Expects(s.store.hooks, id, hook.version) then Finish(s, c)
    else Finish(s.(store := s.store.(hooks := s.store.hooks[id := Versioned(hook.value.(enabled := false),
                                                                            hook.version + 1)])), c)
  }

  /** Queue the next listed delivery again if it is dead. */
  function ReplayNext(s: State, c: nat, request: Request, entries: seq<Entry>): State {
    if entries == [] then Finish(s, c)
    else
      var e := entries[0];
      var rest := s.(clients := s.clients[c := Replaying(request, entries[1..])]);
      if !e.record.value.status.Dead? then rest
      else if !Expects(s.store.deliveries, e.job, e.record.version) then Finish(s, c)
      else
        var tally := TallyOf(s.tallies, e.job);
        rest.(store := s.store.(deliveries := s.store.deliveries[e.job := Versioned(Replayed(e.record.value, s.now),
                                                                                    e.record.version + 1)]),
              tallies := s.tallies[e.job := tally.(replays := tally.replays + 1)])
  }

  function ContinueStep(s: State, c: nat, entries: seq<Entry>): State {
    if c !in s.clients then s
    else
      match s.clients[c]
      case HasHook(request, hook) =>
        var id := RevisionID(request.id, hook.value.activeRevision);
        if request.Disable? then CommitDisable(s, c, request.id, hook)
        else if request.Replay? then s.(clients := s.clients[c := Replaying(request, entries)])
        else if id !in s.store.revisions then Finish(s, c)
        else s.(clients := s.clients[c := HasRevision(request, hook, s.store.revisions[id].value)])
      case HasRevision(request, hook, prior) =>
        if request.Update? || request.RotateSecret? then CommitEdit(s, c, request, hook, prior) else Finish(s, c)
      case Replaying(request, left) => ReplayNext(s, c, request, left)
  }

  // ---- The machine ----

  function PublishStep(s: State, event: Event): State {
    s.(feed := s.feed[event.scope := FeedOf(s.feed, event.scope) + [event]])
  }

  function Do(s: State, step: Step): State {
    match step
    case Dispatch(input) => DispatchStep(s, input)
    case GiveUp => DropWork(s)
    case Call(c, request) => CallStep(s, c, request)
    case Continue(c, entries) => ContinueStep(s, c, entries)
    case Abandon(c) => Finish(s, c)
    case Crash => DropWork(s).(clients := map[])
    case Tick(later) => s.(now := s.now + later)
    case Publish(event) => PublishStep(s, event)
  }

  ghost predicate IsListingFor(s: State, request: Request, entries: seq<Entry>) {
    IsDeliveryListing(entries, s.store, (job: JobID) => job.hookID == request.id)
  }

  /** What listings return, and how the feed grows: cursors ascend, starting above 0. */
  ghost predicate Enabled(s: State, step: Step) {
    match step
    case Dispatch(input) =>
      && (s.work.AtEvent? && input.Hooks? ==> IsHookListing(input.hooks, s.store))
      && (s.work.Resting? && input.StartDrain? ==> IsDeliveryListing(input.entries, s.store, _ => true))
    case Continue(c, entries) =>
      c in s.clients && s.clients[c].HasHook? && s.clients[c].request.Replay? ==>
        IsListingFor(s, s.clients[c].request, entries)
    case Publish(event) =>
      var events := FeedOf(s.feed, event.scope);
      event.cursor > (if events == [] then 0 else events[|events| - 1].cursor)
    case _ => true
  }

  const INITIAL: State := State(0, map[], EMPTY, Resting, map[], map[], map[])

  ghost predicate IsRun(s: State, steps: seq<Step>)
    decreases |steps|
  {
    steps == [] || (Enabled(s, steps[0]) && IsRun(Do(s, steps[0]), steps[1..]))
  }

  function After(s: State, steps: seq<Step>): State
    decreases |steps|
  {
    if steps == [] then s else After(Do(s, steps[0]), steps[1..])
  }
}
