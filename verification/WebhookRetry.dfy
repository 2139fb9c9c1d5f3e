/** Delivery passes: what one pass over the due deliveries does, and why passes come to an end. */
module WebhookRetry {
  import opened Counting
  import opened Results
  import opened Table
  import opened WebhookModel
  import opened Dispatcher
  import Text

  /** One exchange with a receiver: the clock when the record is looked at, the answer, the clock after it. */
  datatype Exchange = Exchange(checked: nat, response: Response, ended: nat)

  datatype Pass = Pass(store: Store, life: Life, status: Status, delivered: nat)

  /** What the pass makes of one listed delivery, once it has been tried. */
  function Recorded(store: Store, e: Entry, x: Exchange): Store {
    var tried := Attempted(e.record.value, x.response, x.ended);
    store.(deliveries := store.deliveries[e.job := Versioned(tried, e.record.version + 1)])
  }

  function DeliverPass(store: Store, entries: seq<Entry>, exchange: JobID -> Exchange, limit: nat, delivered: nat,
                       life: Life): Pass
    decreases |entries|
  {
    if entries == [] || delivered == limit then Pass(store, life, Done, delivered)
    else
      var e := entries[0];
      if !IsDue(e.record.value, exchange(e.job).checked) then
        DeliverPass(store, entries[1..], exchange, limit, delivered, life)
      else if RevisionID(e.job.hookID, e.job.revision) !in store.revisions then
        Pass(store, life, Stopped(NotFound), delivered)
      else if e.job !in store.deliveries || store.deliveries[e.job].version != e.record.version then
        Pass(store, life, Stopped(Conflict), delivered)
      else if !CanWrite(life) then Pass(store, life, Died, delivered)
      else DeliverPass(Recorded(store, e, exchange(e.job)), entries[1..], exchange, limit, delivered + 1, Spend(life))
  }

  // ---- The measure: attempts left over all deliveries ----

  ghost function Total(deliveries: map<JobID, Versioned<Delivery>>): nat
    decreases |deliveries|
  {
    if deliveries == map[] then 0
    else
      var job :| job in deliveries;
      Remaining(deliveries[job].value) + Total(deliveries - {job})
  }

  lemma {:induction false} TotalAt(deliveries: map<JobID, Versioned<Delivery>>, job: JobID)
    requires job in deliveries
    ensures Total(deliveries) == Remaining(deliveries[job].value) + Total(deliveries - {job})
    decreases |deliveries|
  {
    var other :| other in deliveries
        && Total(deliveries) == Remaining(deliveries[other].value) + Total(deliveries - {other});
    if other != job {
      TotalAt(deliveries - {other}, job);
      TotalAt(deliveries - {job}, other);
      assert deliveries - {other} - {job} == deliveries - {job} - {other};
    }
  }

  /** A recorded try of a live delivery costs at least one attempt. */
  lemma TryDecreases(deliveries: map<JobID, Versioned<Delivery>>, job: JobID, tried: Versioned<Delivery>)
    requires job in deliveries && Remaining(tried.value) < Remaining(deliveries[job].value)
    ensures Total(deliveries[job := tried]) < Total(deliveries)
  {
    TotalAt(deliveries, job);
    TotalAt(deliveries[job := tried], job);
    assert deliveries[job := tried] - {job} == deliveries - {job};
  }

  lemma {:induction false} TotalIsZero(deliveries: map<JobID, Versioned<Delivery>>)
    requires Total(deliveries) == 0
    ensures forall job :: job in deliveries ==> Remaining(deliveries[job].value) == 0
  {
    forall job | job in deliveries
      ensures Remaining(deliveries[job].value) == 0
    {
      TotalAt(deliveries, job);
    }
  }

  /** Every delivery is in one of the states that occur and names a stored revision. */
  ghost predicate Sound(store: Store) {
    forall job :: job in store.deliveries ==>
      WellFormed(store.deliveries[job].value) && RevisionID(job.hookID, job.revision) in store.revisions
  }

  /** What is left of a listing still shows the store as it is. */
  ghost predicate Fresh(entries: seq<Entry>, store: Store) {
    && (forall i, j :: 0 <= i < j < |entries| ==> entries[i].job != entries[j].job)
    && (forall i :: 0 <= i < |entries| ==>
          entries[i].job in store.deliveries && store.deliveries[entries[i].job] == entries[i].record)
  }

  lemma RecordedStaysFresh(entries: seq<Entry>, store: Store, x: Exchange)
    requires Fresh(entries, store) && Sound(store) && entries != [] && IsLive(entries[0].record.value)
    ensures var after := Recorded(store, entries[0], x);
            Fresh(entries[1..], after) && Sound(after) && Total(after.deliveries) < Total(store.deliveries)
  {
    var e := entries[0];
    TryDecreases(store.deliveries, e.job,
                 Versioned(Attempted(e.record.value, x.response, x.ended), e.record.version + 1));
    RecordedIsSound(store, e, x);
    OthersStayFresh(entries, store, x);
  }

  lemma RecordedIsSound(store: Store, e: Entry, x: Exchange)
    requires Sound(store) && e.job in store.deliveries && store.deliveries[e.job] == e.record && IsLive(e.record.value)
    ensures Sound(Recorded(store, e, x))
  {
    assert WellFormed(Attempted(e.record.value, x.response, x.ended));
  }

  lemma OthersStayFresh(entries: seq<Entry>, store: Store, x: Exchange)
    requires Fresh(entries, store) && entries != []
    ensures Fresh(entries[1..], Recorded(store, entries[0], x))
  {
    var after := Recorded(store, entries[0], x);
    forall i | 0 <= i < |entries[1..]|
      ensures entries[1..][i].job in after.deliveries && after.deliveries[entries[1..][i].job] == entries[1..][i].record
    {
      assert entries[1..][i] == entries[i + 1] && entries[i + 1].job != entries[0].job;
    }
  }

  lemma TailIsFresh(entries: seq<Entry>, store: Store)
    requires Fresh(entries, store) && entries != []
    ensures Fresh(entries[1..], store)
  {}

  /** A pass never stops on an error, keeps every record in a state that occurs, and pays for
      each recorded try with an attempt; cut short or not, it never gives attempts back. */
  lemma {:induction false} PassPays(store: Store, entries: seq<Entry>, exchange: JobID -> Exchange, limit: nat,
                                    delivered: nat, life: Life)
    requires Fresh(entries, store) && Sound(store) && delivered <= limit
    ensures var p := DeliverPass(store, entries, exchange, limit, delivered, life);
            && !p.status.Stopped? && (p.status.Died? ==> life.Some?) && Sound(p.store)
            && delivered <= p.delivered <= limit
            && Total(p.store.deliveries) + (p.delivered - delivered) <= Total(store.deliveries)
    decreases |entries|
  {
    if entries != [] && delivered != limit {
      var e := entries[0];
      TailIsFresh(entries, store);
      if !IsDue(e.record.value, exchange(e.job).checked) {
        PassPays(store, entries[1..], exchange, limit, delivered, life);
      } else if CanWrite(life) {
        RecordedStaysFresh(entries, store, exchange(e.job));
        PassPays(Recorded(store, e, exchange(e.job)), entries[1..], exchange, limit, delivered + 1, Spend(life));
      }
    }
  }

  ghost predicate HasLive(entries: seq<Entry>) {
    exists i :: 0 <= i < |entries| && IsLive(entries[i].record.value)
  }

  /** Some listed delivery is due when the pass comes to it. */
  ghost predicate HasDue(entries: seq<Entry>, exchange: JobID -> Exchange) {
    exists i :: 0 <= i < |entries| && IsDue(entries[i].record.value, exchange(entries[i].job).checked)
  }

  /** A pass that lives to its end tries something whenever something is due. */
  lemma {:induction false} DuePassTries(store: Store, entries: seq<Entry>, exchange: JobID -> Exchange, limit: nat)
    requires Fresh(entries, store) && Sound(store) && limit > 0 && HasDue(entries, exchange)
    ensures DeliverPass(store, entries, exchange, limit, 0, None).delivered > 0
    decreases |entries|
  {
    var e := entries[0];
    TailIsFresh(entries, store);
    if IsDue(e.record.value, exchange(e.job).checked) {
      RecordedStaysFresh(entries, store, exchange(e.job));
      PassPays(Recorded(store, e, exchange(e.job)), entries[1..], exchange, limit, 1, None);
    } else {
      assert HasDue(entries[1..], exchange) by {
        var i :| 0 <= i < |entries| && IsDue(entries[i].record.value, exchange(entries[i].job).checked);
        assert entries[1..][i - 1] == entries[i];
      }
      DuePassTries(store, entries[1..], exchange, limit);
    }
  }

  // ---- Which deliveries a pass tries ----

  ghost predicate IsTried(e: Entry, exchange: JobID -> Exchange) {
    e.record.value.status in {Pending, Retry} && e.record.value.nextAttemptAt <= exchange(e.job).checked
  }

  ghost function DueAmong(entries: seq<Entry>, exchange: JobID -> Exchange): nat {
    if entries == [] then 0 else (if IsTried(entries[0], exchange) then 1 else 0) + DueAmong(entries[1..], exchange)
  }

  /** What a pass leaves of the i-th listed delivery: an attempt more if it is due and the batch has room. */
  ghost predicate IsPassed(after: Store, entries: seq<Entry>, exchange: JobID -> Exchange, room: nat, i: nat)
    requires i < |entries|
  {
    var e, x := entries[i], exchange(entries[i].job);
    && e.job in after.deliveries
    && after.deliveries[e.job] ==
       if IsTried(e, exchange) && DueAmong(entries[..i], exchange) < room then
         Versioned(Attempted(e.record.value, x.response, x.ended), e.record.version + 1)
       else e.record
  }

  ghost predicate AllPassed(after: Store, entries: seq<Entry>, exchange: JobID -> Exchange, room: nat) {
    forall i :: 0 <= i < |entries| ==> IsPassed(after, entries, exchange, room, i)
  }

  ghost predicate IsListed(entries: seq<Entry>, job: JobID) { exists i :: 0 <= i < |entries| && entries[i].job == job }

  ghost predicate IsSame(before: Store, after: Store, job: JobID) {
    && (job in after.deliveries <==> job in before.deliveries)
    && (job in before.deliveries ==> after.deliveries[job] == before.deliveries[job])
  }

  /** A pass, cut short or not, leaves what it does not list alone. */
  lemma {:induction false} UnlistedIsUntouched(store: Store, entries: seq<Entry>, exchange: JobID -> Exchange,
                                               limit: nat, delivered: nat, life: Life, job: JobID)
    requires !IsListed(entries, job)
    ensures var after := DeliverPass(store, entries, exchange, limit, delivered, life).store;
            IsSame(store, after, job) && after == store.(deliveries := after.deliveries)
    decreases |entries|
  {
    if entries != [] {
      var e := entries[0];
      NotInTail(entries, job);
      UnlistedIsUntouched(store, entries[1..], exchange, limit, delivered, life, job);
      if CanWrite(life) {
        UnlistedIsUntouched(Recorded(store, e, exchange(e.job)), entries[1..], exchange, limit, delivered + 1,
                            Spend(life), job);
      }
    }
  }

  /** A whole pass tries as many deliveries as are due, or as the batch has room for ... */
  lemma {:induction false} PassTriesAsMany(store: Store, entries: seq<Entry>, exchange: JobID -> Exchange, limit: nat,
                                           delivered: nat)
    requires Fresh(entries, store) && Sound(store) && delivered <= limit
    ensures var p := DeliverPass(store, entries, exchange, limit, delivered, None);
            var due := DueAmong(entries, exchange);
            p.status.Done? && p.delivered == (if delivered + due <= limit then delivered + due else limit)
    decreases |entries|
  {
    if entries != [] && delivered != limit {
      TailIsFresh(entries, store);
      if IsTried(entries[0], exchange) {
        RecordedStaysFresh(entries, store, exchange(entries[0].job));
        PassTriesAsMany(Recorded(store, entries[0], exchange(entries[0].job)), entries[1..], exchange, limit,
                        delivered + 1);
      } else {
        PassTriesAsMany(store, entries[1..], exchange, limit, delivered);
      }
    }
  }

  lemma PassGoesOn(store: Store, entries: seq<Entry>, exchange: JobID -> Exchange, limit: nat, delivered: nat,
                   after: Store, count: nat)
    requires Fresh(entries, store) && Sound(store) && entries != [] && delivered < limit
    requires var e, tried := entries[0], IsTried(entries[0], exchange);
             && after == (if tried then Recorded(store, e, exchange(e.job)) else store)
             && count == if tried then delivered + 1 else delivered
    ensures Fresh(entries[1..], after) && Sound(after) && entries[0].job in after.deliveries
    ensures DeliverPass(store, entries, exchange, limit, delivered, None) ==
            DeliverPass(after, entries[1..], exchange, limit, count, None)
  {
    TailIsFresh(entries, store);
    if IsTried(entries[0], exchange) {
      RecordedStaysFresh(entries, store, exchange(entries[0].job));
    }
  }

  /** ... namely the first ones on the listing that are due, each of them once, and no others. */
  lemma {:induction false} PassTriesTheDue(store: Store, entries: seq<Entry>, exchange: JobID -> Exchange, limit: nat,
                                           delivered: nat)
    requires Fresh(entries, store) && Sound(store) && delivered <= limit
    ensures AllPassed(DeliverPass(store, entries, exchange, limit, delivered, None).store, entries, exchange,
                      limit - delivered)
    decreases |entries|
  {
    if entries != [] && delivered != limit {
      var e := entries[0];
      var tried := IsTried(e, exchange);
      var after := if tried then Recorded(store, e, exchange(e.job)) else store;
      var count := if tried then delivered + 1 else delivered;
      var p := DeliverPass(store, entries, exchange, limit, delivered, None);
      PassGoesOn(store, entries, exchange, limit, delivered, after, count);
      HeadIsNotInTail(entries, store);
      PassTriesTheDue(after, entries[1..], exchange, limit, count);
      UnlistedIsUntouched(after, entries[1..], exchange, limit, count, None, e.job);
      FirstIsPassed(after, p.store, entries, exchange, limit - delivered);
    } else {
      NoRoom(store, entries, exchange);
    }
  }

  lemma NoRoom(store: Store, entries: seq<Entry>, exchange: JobID -> Exchange)
    requires Fresh(entries, store)
    ensures AllPassed(store, entries, exchange, 0)
  {}

  lemma FirstIsPassed(middle: Store, after: Store, entries: seq<Entry>, exchange: JobID -> Exchange, room: nat)
    requires entries != [] && room > 0 && IsSame(middle, after, entries[0].job)
    requires AllPassed(after, entries[1..], exchange, if IsTried(entries[0], exchange) then room - 1 else room)
    requires var e, x := entries[0], exchange(entries[0].job);
             && e.job in middle.deliveries
             && middle.deliveries[e.job] ==
                if IsTried(e, exchange) then
                  Versioned(Attempted(e.record.value, x.response, x.ended), e.record.version + 1)
                else e.record
    ensures AllPassed(after, entries, exchange, room)
  {
    forall i | 0 <= i < |entries|
      ensures IsPassed(after, entries, exchange, room, i)
    {
      if i > 0 {
        PassedOneOn(after, entries, exchange, room, i);
      }
    }
  }

  lemma HeadIsNotInTail(entries: seq<Entry>, store: Store)
    requires Fresh(entries, store) && entries != []
    ensures !IsListed(entries[1..], entries[0].job)
  {
    assert forall i :: 0 <= i < |entries[1..]| ==> entries[1..][i] == entries[i + 1];
  }

  lemma NotInTail(entries: seq<Entry>, job: JobID)
    requires entries != [] && !IsListed(entries, job)
    ensures job != entries[0].job && !IsListed(entries[1..], job)
  {
    assert forall i :: 0 <= i < |entries[1..]| ==> entries[1..][i] == entries[i + 1];
  }

  lemma PassedOneOn(after: Store, entries: seq<Entry>, exchange: JobID -> Exchange, room: nat, i: nat)
    requires 0 < i < |entries| && room > 0
    requires IsPassed(after, entries[1..], exchange, if IsTried(entries[0], exchange) then room - 1 else room, i - 1)
    ensures IsPassed(after, entries, exchange, room, i)
  {
    assert entries[1..][i - 1] == entries[i];
    assert entries[..i][1..] == entries[1..][..i - 1];
  }

  // ---- Passes one after the other ----

  /** What a pass lists and meets, and the clock when it begins and when it is over. */
  datatype PassInput = PassInput(entries: seq<Entry>, exchange: JobID -> Exchange, limit: int, life: Life, begun: nat,
                                 ended: nat)

  /** The code's default for the batch size. */
  function BatchSize(limit: int): nat { if limit <= 0 then 100 else limit }

  function RunPass(store: Store, pass: PassInput): Pass {
    DeliverPass(store, pass.entries, pass.exchange, BatchSize(pass.limit), 0, pass.life)
  }

  function RunPasses(store: Store, passes: seq<PassInput>): Store
    decreases |passes|
  {
    if passes == [] then store else RunPasses(RunPass(store, passes[0]).store, passes[1..])
  }

  ghost predicate Listed(store: Store, pass: PassInput) { IsDeliveryListing(pass.entries, store, _ => true) }

  /** Every pass starts with a listing of the store as the pass before it left it. */
  ghost predicate AllListed(store: Store, passes: seq<PassInput>)
    decreases |passes|
  {
    passes == [] || (Listed(store, passes[0]) && AllListed(RunPass(store, passes[0]).store, passes[1..]))
  }

  ghost predicate Counts(pass: PassInput) { pass.life.None? && HasDue(pass.entries, pass.exchange) }

  /** How many of the passes live to their end and find something due. */
  ghost function DuePasses(passes: seq<PassInput>): nat {
    if passes == [] then 0 else (if Counts(passes[0]) then 1 else 0) + DuePasses(passes[1..])
  }

  lemma ListingIsFresh(store: Store, pass: PassInput)
    requires Listed(store, pass)
    ensures Fresh(pass.entries, store)
  {
    forall i, j | 0 <= i < j < |pass.entries|
      ensures pass.entries[i].job != pass.entries[j].job
    {
      Text.LessIrreflexive(JobKey(pass.entries[i].job));
    }
  }

  /** Over any run of passes, early or late, cut short or not, the whole ones that found something
      due are paid for by attempts: their number is bounded by the attempts there were at the start. */
  lemma {:induction false} PassesPay(store: Store, passes: seq<PassInput>)
    requires Sound(store) && AllListed(store, passes)
    ensures Sound(RunPasses(store, passes))
    ensures DuePasses(passes) + Total(RunPasses(store, passes).deliveries) <= Total(store.deliveries)
    decreases |passes|
  {
    if passes != [] {
      var pass := passes[0];
      ListingIsFresh(store, pass);
      PassPays(store, pass.entries, pass.exchange, BatchSize(pass.limit), 0, pass.life);
      if Counts(pass) {
        DuePassTries(store, pass.entries, pass.exchange, BatchSize(pass.limit));
      }
      PassesPay(RunPass(store, pass).store, passes[1..]);
    }
  }

  ghost predicate Quiet(store: Store) {
    forall job :: job in store.deliveries ==> store.deliveries[job].value.status in {Completed, Dead}
  }

  /** Each of the passes lives to its end, and finds something due if anything is live at all. */
  ghost predicate AllAttentive(passes: seq<PassInput>) {
    forall i :: 0 <= i < |passes| ==>
      passes[i].life.None? && (HasLive(passes[i].entries) ==> HasDue(passes[i].entries, passes[i].exchange))
  }

  lemma NothingLiveIsQuiet(store: Store, pass: PassInput)
    requires Listed(store, pass) && !HasLive(pass.entries)
    ensures Quiet(store)
  {
    forall job | job in store.deliveries
      ensures store.deliveries[job].value.status in {Completed, Dead}
    {
      var i := EntryOf(store, pass, job);
      assert !IsLive(pass.entries[i].record.value);
    }
  }

  lemma EntryOf(store: Store, pass: PassInput, job: JobID) returns (i: nat)
    requires Listed(store, pass) && job in store.deliveries
    ensures i < |pass.entries| && pass.entries[i] == Entry(job, store.deliveries[job])
  {
    i :| 0 <= i < |pass.entries| && pass.entries[i] == Entry(job, store.deliveries[job]);
  }

  lemma {:induction false} NothingToTry(store: Store, entries: seq<Entry>, exchange: JobID -> Exchange, limit: nat,
                                        life: Life)
    requires !HasLive(entries)
    ensures DeliverPass(store, entries, exchange, limit, 0, life).store == store
    decreases |entries|
  {
    if entries != [] && limit != 0 {
      assert forall i :: 0 <= i < |entries[1..]| ==> entries[1..][i] == entries[i + 1];
      NothingToTry(store, entries[1..], exchange, limit, life);
    }
  }

  /** Retrying ends: as many passes that found something due as there were attempts left leave only
      completed or dead deliveries. */
  lemma {:induction false} RetryingEnds(store: Store, passes: seq<PassInput>)
    requires Sound(store) && AllListed(store, passes) && AllAttentive(passes) && |passes| >= Total(store.deliveries)
    ensures Quiet(RunPasses(store, passes))
    decreases |passes|
  {
    if passes == [] {
      TotalIsZero(store.deliveries);
    } else {
      var pass := passes[0];
      ListingIsFresh(store, pass);
      PassPays(store, pass.entries, pass.exchange, BatchSize(pass.limit), 0, pass.life);
      if HasLive(pass.entries) {
        DuePassTries(store, pass.entries, pass.exchange, BatchSize(pass.limit));
        RetryingEnds(RunPass(store, pass).store, passes[1..]);
      } else {
        NothingLiveIsQuiet(store, pass);
        QuietForGood(store, passes);
      }
    }
  }

  lemma {:induction false} QuietForGood(store: Store, passes: seq<PassInput>)
    requires Quiet(store) && AllListed(store, passes)
    ensures RunPasses(store, passes) == store
    decreases |passes|
  {
    if passes != [] {
      var pass := passes[0];
      NothingToTry(store, pass.entries, pass.exchange, BatchSize(pass.limit), pass.life);
      QuietForGood(store, passes[1..]);
    }
  }

  // ---- By the clock ----

  /** No delivery waits longer than this after an attempt. */
  const LONGEST_WAIT: nat := 128 * SECOND

  ghost predicate NotFar(store: Store, now: nat) {
    forall job :: job in store.deliveries && IsLive(store.deliveries[job].value) ==>
      store.deliveries[job].value.nextAttemptAt <= now + LONGEST_WAIT
  }

  /** The clock does not go back while the pass runs. */
  ghost predicate InTime(entries: seq<Entry>, exchange: JobID -> Exchange, begun: nat, ended: nat) {
    && begun <= ended
    && forall i :: 0 <= i < |entries| ==>
         begun <= exchange(entries[i].job).checked && exchange(entries[i].job).ended <= ended
  }

  lemma TailInTime(entries: seq<Entry>, exchange: JobID -> Exchange, begun: nat, ended: nat)
    requires InTime(entries, exchange, begun, ended) && entries != []
    ensures InTime(entries[1..], exchange, begun, ended)
  {
    assert forall i :: 0 <= i < |entries[1..]| ==> entries[1..][i] == entries[i + 1];
  }

  lemma AttemptNotFar(d: Delivery, response: Response, at: nat)
    ensures IsLive(Attempted(d, response, at)) ==>
              Attempted(d, response, at).nextAttemptAt <= at + LONGEST_WAIT || Attempted(d, response, at) == d
  {
    if d.attempts < 7 {
      AttemptWait(d.attempts + 1);
    }
  }

  lemma AttemptWait(attempt: nat)
    requires 1 <= attempt <= 7
    ensures Backoff(attempt) <= LONGEST_WAIT
  {
    PowersGrow(attempt, 7);
    assert Power2(7) == 128 by { assert Power2(4) == 16; }
  }

  lemma RecordedNotFar(store: Store, e: Entry, x: Exchange, ended: nat)
    requires NotFar(store, ended) && x.ended <= ended
    ensures NotFar(Recorded(store, e, x), ended)
  {
    AttemptNotFar(e.record.value, x.response, x.ended);
  }

  lemma {:induction false} PassNotFar(store: Store, entries: seq<Entry>, exchange: JobID -> Exchange, limit: nat,
                                      delivered: nat, life: Life, begun: nat, ended: nat)
    requires NotFar(store, ended) && InTime(entries, exchange, begun, ended)
    ensures NotFar(DeliverPass(store, entries, exchange, limit, delivered, life).store, ended)
    decreases |entries|
  {
    if entries != [] {
      var e := entries[0];
      TailInTime(entries, exchange, begun, ended);
      PassNotFar(store, entries[1..], exchange, limit, delivered, life, begun, ended);
      if CanWrite(life) {
        RecordedNotFar(store, e, exchange(e.job), ended);
        PassNotFar(Recorded(store, e, exchange(e.job)), entries[1..], exchange, limit, delivered + 1, Spend(life),
                   begun, ended);
      }
    }
  }

  /** A pass that tries nothing changes nothing. */
  lemma {:induction false} UntriedIsUnchanged(store: Store, entries: seq<Entry>, exchange: JobID -> Exchange,
                                              limit: nat,
                                              delivered: nat, life: Life)
    requires delivered <= limit
    ensures var p := DeliverPass(store, entries, exchange, limit, delivered, life);
            p.delivered >= delivered && (p.delivered == delivered ==> p.store == store)
    decreases |entries|
  {
    if entries != [] && delivered != limit {
      var e := entries[0];
      UntriedIsUnchanged(store, entries[1..], exchange, limit, delivered, life);
      if CanWrite(life) {
        UntriedIsUnchanged(Recorded(store, e, exchange(e.job)), entries[1..], exchange, limit, delivered + 1,
                           Spend(life));
      }
    }
  }

  /** Once the longest wait is over, whatever is live is due. */
  lemma WaitIsOver(store: Store, pass: PassInput, since: nat)
    requires Listed(store, pass) && NotFar(store, since) && InTime(pass.entries, pass.exchange, pass.begun, pass.ended)
    requires pass.begun >= since + LONGEST_WAIT && HasLive(pass.entries)
    ensures HasDue(pass.entries, pass.exchange)
  {
    var i :| 0 <= i < |pass.entries| && IsLive(pass.entries[i].record.value);
    assert IsDue(pass.entries[i].record.value, pass.exchange(pass.entries[i].job).checked);
  }

  /** A pass begins after the latest one and is over at most gap after the last whole pass before it began. */
  ghost predicate Fits(latest: nat, whole: nat, pass: PassInput, gap: nat) {
    && latest <= pass.begun && pass.ended <= whole + gap
    && InTime(pass.entries, pass.exchange, pass.begun, pass.ended)
  }

  /** The passes follow each other on the clock, with no more than gap between whole ones. */
  ghost predicate InStep(latest: nat, whole: nat, passes: seq<PassInput>, gap: nat)
    decreases |passes|
  {
    passes == []
    || (Fits(latest, whole, passes[0], gap) && InStep(passes[0].ended, LastWhole(whole, passes[0]), passes[1..], gap))
  }

  function LastWhole(whole: nat, pass: PassInput): nat { if pass.life.None? then pass.begun else whole }

  /** When the last whole pass began. */
  function Covered(whole: nat, passes: seq<PassInput>): nat
    decreases |passes|
  {
    if passes == [] then whole else Covered(LastWhole(whole, passes[0]), passes[1..])
  }

  /** How one pass moves the account: attempts left, the clock since which nothing waits longer than it may. */
  lemma PassInStep(store: Store, pass: PassInput, since: nat, latest: nat, whole: nat, gap: nat) returns (since': nat)
    requires Sound(store) && Listed(store, pass) && NotFar(store, since) && Fits(latest, whole, pass, gap)
    requires since <= latest && whole <= latest && whole < since + LONGEST_WAIT && HasLive(pass.entries)
    ensures var after := RunPass(store, pass).store;
            && Sound(after) && NotFar(after, since') && since' <= pass.ended
            && LastWhole(whole, pass) <= pass.ended && LastWhole(whole, pass) < since' + LONGEST_WAIT
            && (if since' == since then Total(after.deliveries) <= Total(store.deliveries)
                else Total(after.deliveries) < Total(store.deliveries) && since' <= since + LONGEST_WAIT + gap)
  {
    var limit := BatchSize(pass.limit);
    ListingIsFresh(store, pass);
    PassPays(store, pass.entries, pass.exchange, limit, 0, pass.life);
    UntriedIsUnchanged(store, pass.entries, pass.exchange, limit, 0, pass.life);
    if RunPass(store, pass).delivered > 0 {
      since' := pass.ended;
      PassNotFar(store, pass.entries, pass.exchange, limit, 0, pass.life, pass.begun, pass.ended);
    } else {
      since' := since;
      if pass.life.None? && pass.begun >= since + LONGEST_WAIT {
        WaitIsOver(store, pass, since);
        DuePassTries(store, pass.entries, pass.exchange, limit);
      }
    }
  }

  lemma Account(left: nat, leftAfter: nat, since: nat, since': nat, covered: nat, k: nat)
    requires covered >= since + Times(left, k)
    requires if since' == since then leftAfter <= left else leftAfter < left && since' <= since + k
    ensures covered >= since' + Times(leftAfter, k)
  {
    if since' == since {
      TimesGrows(leftAfter, left, k);
    } else {
      TimesGrows(leftAfter, left - 1, k);
    }
  }

  lemma {:induction false} EndsInTime(store: Store, passes: seq<PassInput>, since: nat, latest: nat, whole: nat,
                                      gap: nat)
    requires Sound(store) && AllListed(store, passes) && NotFar(store, since) && InStep(latest, whole, passes, gap)
    requires since <= latest && whole <= latest && whole < since + LONGEST_WAIT
    requires Covered(whole, passes) >= since + Times(Total(store.deliveries), LONGEST_WAIT + gap)
    ensures Quiet(RunPasses(store, passes))
    decreases |passes|
  {
    if passes == [] {
      TotalIsZero(store.deliveries);
    } else if !HasLive(passes[0].entries) {
      NothingLiveIsQuiet(store, passes[0]);
      QuietForGood(store, passes);
    } else {
      var pass := passes[0];
      var since' := PassInStep(store, pass, since, latest, whole, gap);
      var after := RunPass(store, pass).store;
      Account(Total(store.deliveries), Total(after.deliveries), since, since', Covered(whole, passes),
              LONGEST_WAIT + gap);
      EndsInTime(after, passes[1..], since', pass.ended, LastWhole(whole, pass), gap);
    }
  }

  /** Retrying ends by the clock: however often a pass finds nothing due or is cut short, once whole
      passes have gone on for the attempts left times 128 seconds and the time from one whole pass
      to the next, every delivery is completed or dead. */
  lemma RetryingEndsInTime(store: Store, passes: seq<PassInput>, start: nat, gap: nat)
    requires Sound(store) && NotFar(store, start) && AllListed(store, passes) && InStep(start, start, passes, gap)
    requires Covered(start, passes) >= start + Total(store.deliveries) * (128 * 1_000_000_000 + gap)
    ensures Quiet(RunPasses(store, passes))
  {
    TimesIsProduct(Total(store.deliveries), LONGEST_WAIT + gap);
    EndsInTime(store, passes, start, start, start, gap);
  }

  /** There are never more attempts left than eight for each delivery. */
  lemma {:induction false} AtMostEightEach(deliveries: map<JobID, Versioned<Delivery>>)
    ensures Total(deliveries) <= 8 * |deliveries|
    decreases |deliveries|
  {
    if deliveries != map[] {
      var job :| job in deliveries;
      TotalAt(deliveries, job);
      var rest := deliveries - {job};
      AtMostEightEach(rest);
      assert rest.Keys == deliveries.Keys - {job};
      assert |rest| == |rest.Keys| && |deliveries| == |deliveries.Keys|;
    }
  }
}
