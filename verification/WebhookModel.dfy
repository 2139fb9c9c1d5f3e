/** The records of the webhook pipeline and the decisions made about a single record. */
module WebhookModel {
  import opened Results
  import opened Keys
  import opened Table
  import Text

  datatype Event = Event(id: string, scope: Scope, cursor: nat, kind: string, objectType: string)

  datatype Hook = Hook(id: string, scope: Scope, url: string, events: seq<string>, objectTypes: seq<string>,
                       lookups: string, activeRevision: nat, enabled: bool)

  datatype HookRevision = HookRevision(hookID: string, number: nat, source: string, limits: string, secret: string)

  datatype MatStatus = Stored | Rendered | Skipped | Failed

  /** An event as one revision of one webhook sees it. */
  datatype Materialization = Materialization(context: string, payload: string, status: MatStatus, error: string)

  datatype DeliveryStatus = Pending | Retry | Completed | Dead

  datatype Stage = TransformStage | DeliveryStage

  datatype Delivery = Delivery(url: string, payload: string, status: DeliveryStatus, stage: Stage, attempts: nat,
                               lastStatus: nat, lastError: string, nextAttemptAt: nat)

  datatype RevisionID = RevisionID(hookID: string, number: nat)

  /** Materializations and deliveries are named alike: one per (webhook, revision, event). */
  datatype JobID = JobID(hookID: string, revision: nat, eventID: string)

  datatype Store = Store(hooks: map<string, Versioned<Hook>>, revisions: map<RevisionID, Versioned<HookRevision>>,
                         mats: map<JobID, Versioned<Materialization>>, deliveries: map<JobID, Versioned<Delivery>>,
                         cursors: map<Scope, Versioned<nat>>)

  const EMPTY: Store := Store(map[], map[], map[], map[], map[])

  /** What a transform makes of a materialized event. */
  datatype Outcome = Threw(error: string) | Unmatched | Matched(payload: string)

  /** The data plane's materialization and the script runtime, as functions of what they are given. */
  datatype Env = Env(materialize: (Event, string) -> Option<string>, transform: (string, string, string) -> Outcome)

  // ---- Deciding about one webhook and one event ----

  predicate Matches(hook: Hook, event: Event) {
    hook.enabled && hook.scope == event.scope
    && ("*" in hook.events || event.kind in hook.events)
    && (hook.objectTypes == [] || event.objectType in hook.objectTypes)
  }

  /** The webhook has nothing to do with the event: it is disabled, belongs to another tenant or
      database, asks for other kinds of events only, or for other object types only. */
  ghost predicate PassesOver(hook: Hook, event: Event) {
    || !hook.enabled
    || hook.scope.tenant != event.scope.tenant || hook.scope.database != event.scope.database
    || (forall kind :: kind in hook.events ==> kind != "*" && kind != event.kind)
    || (hook.objectTypes != []
        && forall objectType :: objectType in hook.objectTypes ==> objectType != event.objectType)
  }

  function JobOf(hook: Hook, event: Event): JobID { JobID(hook.id, hook.activeRevision, event.id) }

  function NewMaterialization(context: string): Materialization { Materialization(context, "", Stored, "") }

  function Transformed(m: Materialization, outcome: Outcome): Materialization {
    match outcome
    case Threw(error) => m.(status := Failed, error := error)
    case Unmatched => m.(status := Skipped)
    case Matched(payload) => m.(status := Rendered, payload := payload)
  }

  /** The delivery that belongs to a rendered or failed materialization. */
  function DeliveryFor(hook: Hook, m: Materialization, now: nat): Delivery {
    if m.status.Failed? then Delivery(hook.url, m.payload, Dead, TransformStage, 0, 0, m.error, now)
    else Delivery(hook.url, m.payload, Pending, DeliveryStage, 0, 0, "", now)
  }

  /** Nothing is left to do for this webhook revision and event. */
  ghost predicate Finished(store: Store, job: JobID) {
    && job in store.mats && !store.mats[job].value.status.Stored?
    && (store.mats[job].value.status.Skipped? || job in store.deliveries)
  }

  // ---- One attempt to deliver ----

  const MAX_ATTEMPTS: nat := 8

  /** Time is counted in nanoseconds. */
  const SECOND: nat := 1_000_000_000

  /** How an attempt ends: with an HTTP status, or without any response. */
  datatype Response = Answered(code: nat) | NoResponse(error: string)

  function Power2(n: nat): (p: nat)
    ensures p >= 1
  {
    if n == 0 then 1 else 2 * Power2(n - 1)
  }

  function Backoff(attempt: nat): nat {
    var seconds := Power2(if attempt < 12 then attempt else 12);
    (if seconds > 3600 then 3600 else seconds) * SECOND
  }

  predicate IsLive(d: Delivery) { d.status.Pending? || d.status.Retry? }

  predicate IsDue(d: Delivery, now: nat) { IsLive(d) && d.nextAttemptAt <= now }

  /** The record after one attempt that ended at the given time. */
  function Attempted(d: Delivery, response: Response, now: nat): Delivery {
    var tried := d.(attempts := d.attempts + 1);
    if response.Answered? && 200 <= response.code < 300 then
      tried.(status := Completed, lastError := "", lastStatus := response.code)
    else
      var failed := if response.Answered? then
                      tried.(lastStatus := response.code,
                             lastError := "webhook returned HTTP " + Text.Decimal(response.code))
                    else tried.(lastError := response.error);
      if failed.attempts >= MAX_ATTEMPTS then failed.(status := Dead)
      else failed.(status := Retry, nextAttemptAt := now + Backoff(failed.attempts))
  }

  /** A dead letter queued again. */
  function Replayed(d: Delivery, now: nat): Delivery {
    d.(status := Pending, stage := DeliveryStage, attempts := 0, lastError := "", lastStatus := 0, nextAttemptAt := now)
  }

  /** Which combinations of status, stage and attempts occur. */
  predicate WellFormed(d: Delivery) {
    match d.status
    case Pending => d.attempts == 0 && d.stage == DeliveryStage
    case Retry => 1 <= d.attempts < MAX_ATTEMPTS && d.stage == DeliveryStage
    case Completed => 1 <= d.attempts <= MAX_ATTEMPTS && d.stage == DeliveryStage
    case Dead => if d.stage == DeliveryStage then d.attempts == MAX_ATTEMPTS else d.attempts == 0
  }

  /** Attempts that a live delivery still has. */
  function Remaining(d: Delivery): nat {
    if IsLive(d) && d.attempts < MAX_ATTEMPTS then MAX_ATTEMPTS - d.attempts else 0
  }

  lemma {:induction false} PowersGrow(m: nat, n: nat)
    requires m <= n
    ensures Power2(m) <= Power2(n)
    decreases n
  {
    if m < n { PowersGrow(m, n - 1); }
  }

  /** Waiting times double from two seconds on and never decrease or exceed an hour. */
  lemma BackoffGrows(m: nat, n: nat)
    requires 1 <= m <= n
    ensures 2 * 1_000_000_000 <= Backoff(m) <= Backoff(n) <= 3600 * 1_000_000_000
    ensures n <= 11 ==> Backoff(n) == Power2(n) * 1_000_000_000
    ensures n >= 12 ==> Backoff(n) == 3600 * 1_000_000_000
  {
    PowersGrow(1, if m < 12 then m else 12);
    PowersGrow(if m < 12 then m else 12, if n < 12 then n else 12);
    if n <= 11 {
      PowersGrow(n, 11);
      assert Power2(11) == 2048 by { assert Power2(5) == 32; assert Power2(8) == 256; }
    } else {
      assert Power2(12) == 4096 by { assert Power2(5) == 32; assert Power2(8) == 256; assert Power2(11) == 2048; }
    }
  }

  lemma FirstPowers(n: nat)
    requires n < 7
    ensures Power2(n + 1) == [2, 4, 8, 16, 32, 64, 128][n]
  {
    assert Power2(1) == 2 && Power2(2) == 4 && Power2(3) == 8 && Power2(4) == 16;
    assert Power2(5) == 32 && Power2(6) == 64 && Power2(7) == 128;
  }

  /** What one attempt on a live delivery can do to it. */
  lemma AttemptMoves(d: Delivery, response: Response, now: nat)
    requires WellFormed(d) && d.status in {Pending, Retry}
    ensures var tried := Attempted(d, response, now);
            var accepted := response.Answered? && 200 <= response.code < 300;
            && WellFormed(tried) && tried.attempts == d.attempts + 1 && Remaining(tried) < Remaining(d)
            && tried.url == d.url && tried.payload == d.payload && tried.stage == d.stage
            && (tried.status.Completed? <==> accepted)
            && (tried.status.Dead? <==> !accepted && d.attempts == 7)
            && (tried.status.Retry? <==> !accepted && d.attempts < 7)
            && tried.nextAttemptAt == (if !tried.status.Retry? then d.nextAttemptAt
                                       else now + [2, 4, 8, 16, 32, 64, 128][d.attempts] * 1_000_000_000)
            && tried.lastStatus == (if response.Answered? then response.code else d.lastStatus)
            && tried.lastError ==
               (if accepted then ""
                else if response.Answered? then "webhook returned HTTP " + Text.Decimal(response.code)
                else response.error)
  {
    if d.attempts < 7 {
      BackoffGrows(d.attempts + 1, d.attempts + 1);
      FirstPowers(d.attempts);
    }
  }

  // ---- Listings ----

  /** A delivery as a listing of the store returned it. */
  datatype Entry = Entry(job: JobID, record: Versioned<Delivery>)

  /** The store's listing of all webhooks, ascending by ID. */
  ghost predicate IsHookListing(hooks: seq<Hook>, store: Store) {
    && (forall i, j :: 0 <= i < j < |hooks| ==> Text.Less(hooks[i].id, hooks[j].id))
    && (forall i :: 0 <= i < |hooks| ==> hooks[i].id in store.hooks && store.hooks[hooks[i].id].value == hooks[i])
    && (forall id :: id in store.hooks ==> store.hooks[id].value in hooks)
  }

  /** A listing of all deliveries, or of those of one webhook: each once, in the order of its key. */
  ghost predicate IsDeliveryListing(entries: seq<Entry>, store: Store, wanted: JobID -> bool) {
    && (forall i, j :: 0 <= i < j < |entries| ==> Text.Less(JobKey(entries[i].job), JobKey(entries[j].job)))
    && (forall i :: 0 <= i < |entries| ==>
          wanted(entries[i].job) && entries[i].job in store.deliveries
          && store.deliveries[entries[i].job] == entries[i].record)
    && (forall job :: job in store.deliveries && wanted(job) ==> Entry(job, store.deliveries[job]) in entries)
  }

  /** The key of a materialization and of its delivery. */
  function JobKey(job: JobID): string {
    job.hookID + "/" + Text.ZeroPadded(job.revision, 20) + "/" + job.eventID
  }
}
