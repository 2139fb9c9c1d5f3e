/** The keys under which materializations and deliveries are stored. */
module WebhookKeys {
  import opened Keys
  import opened Text
  import opened WebhookModel

  /** Webhook IDs are hexadecimal, so they contain no slash. */
  ghost predicate IsHookID(id: string) { '/' !in id }

  /** The first slash of a key ends the webhook's ID. */
  lemma FirstSlash(id: string, x: string, other: string, y: string)
    requires IsHookID(id) && IsHookID(other) && id + "/" + x == other + "/" + y
    ensures id == other && x == y
  {
    var l, r := id + "/" + x, other + "/" + y;
    assert l[|id|] == '/' && r[|other|] == '/';
    assert forall i :: 0 <= i < |id| ==> l[i] == id[i];
    assert forall i :: 0 <= i < |other| ==> r[i] == other[i];
    assert |id| == |other|;
    assert id == l[..|id|] && other == r[..|other|];
    assert x == l[|id| + 1..] && y == r[|other| + 1..];
  }

  /** A key names one webhook, one revision and one event, whatever characters the event's ID holds. */
  lemma JobKeyInjective(a: JobID, b: JobID)
    requires IsHookID(a.hookID) && IsHookID(b.hookID) && a.revision <= MAX_UINT64 && b.revision <= MAX_UINT64
    requires JobKey(a) == JobKey(b)
    ensures a == b
  {
    FitsTwentyDigits(a.revision);
    FitsTwentyDigits(b.revision);
    var x, y := Digits(a.revision, 20), Digits(b.revision, 20);
    Tail(a);
    Tail(b);
    FirstSlash(a.hookID, x + "/" + a.eventID, b.hookID, y + "/" + b.eventID);
    SameWidth(x, a.eventID, y, b.eventID);
    DigitsInjective(a.revision, b.revision, 20);
  }

  lemma Tail(job: JobID)
    requires job.revision <= MAX_UINT64
    ensures JobKey(job) == job.hookID + "/" + (Digits(job.revision, 20) + "/" + job.eventID)
  {
    FitsTwentyDigits(job.revision);
    var d := Digits(job.revision, 20);
    assert job.hookID + "/" + d + "/" + job.eventID == job.hookID + "/" + (d + "/" + job.eventID);
  }

  lemma SameWidth(x: string, s: string, y: string, t: string)
    requires |x| == |y| && x + "/" + s == y + "/" + t
    ensures x == y && s == t
  {
    var l, r := x + "/" + s, y + "/" + t;
    assert x == l[..|x|] && y == r[..|y|] && s == l[|x| + 1..] && t == r[|y| + 1..];
  }

  /** Listing by a webhook's ID and a slash returns that webhook's deliveries and no others. */
  lemma HookListingIsExact(job: JobID, id: string)
    requires IsHookID(job.hookID) && IsHookID(id)
    ensures HasPrefix(JobKey(job), id + "/") <==> job.hookID == id
  {
    var key, prefix := JobKey(job), id + "/";
    var tail := ZeroPadded(job.revision, 20) + "/" + job.eventID;
    assert key == job.hookID + "/" + tail;
    if HasPrefix(key, prefix) {
      assert key == id + "/" + key[|prefix|..];
      FirstSlash(job.hookID, tail, id, key[|prefix|..]);
    }
  }
}
