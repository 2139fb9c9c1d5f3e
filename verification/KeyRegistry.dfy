/** The API keys of a server and the rule that a global administrator always remains. */
module KeyRegistry {
  import opened Results
  import opened Sorting
  import opened Table
  import opened Text

  datatype ServiceKey = ServiceKey(id: string, title: string, digest: string, tenant: string, database: string,
                                   actions: seq<string>, enabled: bool)

  datatype Tenant = Tenant(enabled: bool, databases: seq<string>)

  /** Keys are stored under the digest of their secret; several may share an ID. */
  type Keys = map<string, Versioned<ServiceKey>>

  /** What a command depends on besides the keys: the tenants, and the text rules of the server. */
  datatype World = World(tenants: map<string, Tenant>, trim: string -> string,
                         normalize: seq<string> -> Option<seq<string>>, validIdentity: string -> bool)

  datatype Input = Input(title: string, tenant: string, database: string, actions: seq<string>)

  datatype Change = Change(title: Option<string>, actions: Option<seq<string>>, enabled: Option<bool>)

  /** A random identity: the ID and the digest of the secret. */
  datatype Fresh = Fresh(id: string, digest: string)

  const MAX_TITLE := 120
  const TRIES := 5

  /** There is an enabled key for every tenant, every database and every action. */
  ghost predicate HasAdmin(keys: Keys) {
    exists d :: d in keys && keys[d].value.enabled && keys[d].value.tenant == "*" && keys[d].value.database == "*"
                && "*" in keys[d].value.actions
  }

  predicate IsRoot(k: ServiceKey) { k.enabled && k.tenant == "*" && k.database == "*" && "*" in k.actions }

  function Roots(keys: Keys): set<string> { set d | d in keys && IsRoot(keys[d].value) }

  ghost predicate Filed(keys: Keys) { forall d :: d in keys ==> keys[d].value.digest == d }

  function ScopeError(w: World, tenant: string, database: string): Option<ErrorCode> {
    if tenant == "*" then (if database != "*" then Some(Invalid) else None)
    else if !w.validIdentity(tenant) || (database != "*" && !w.validIdentity(database)) then Some(Invalid)
    else if tenant !in w.tenants then Some(NotFound)
    else if !w.tenants[tenant].enabled then Some(Invalid)
    else if database != "*" && database !in w.tenants[tenant].databases then Some(Invalid)
    else None
  }

  /** A key may be made for this: everything, or a registered, enabled tenant and all or one of its databases. */
  predicate IsOpen(w: World, tenant: string, database: string) {
    || (tenant == "*" && database == "*")
    || (tenant != "*" && w.validIdentity(tenant) && tenant in w.tenants && w.tenants[tenant].enabled
        && (database == "*" || (w.validIdentity(database) && database in w.tenants[tenant].databases)))
  }

  /** A well-formed scope of a tenant that is not registered. */
  predicate IsUnknown(w: World, tenant: string, database: string) {
    && tenant != "*" && w.validIdentity(tenant) && (database == "*" || w.validIdentity(database))
    && tenant !in w.tenants
  }

  lemma ScopeErrorIs(w: World, tenant: string, database: string)
    ensures var error := ScopeError(w, tenant, database);
            && (error.None? <==> IsOpen(w, tenant, database))
            && (error == Some(NotFound) <==> IsUnknown(w, tenant, database))
            && (error.None? || error == Some(NotFound) || error == Some(Invalid))
  {}

  // ---- Looking up ----

  /** The first of the digests whose key has this ID. */
  function FirstWithID(keys: Keys, digests: seq<string>, id: string): Option<string>
    requires forall d :: d in digests ==> d in keys
  {
    if digests == [] then None
    else if keys[digests[0]].value.id == id then Some(digests[0])
    else FirstWithID(keys, digests[1..], id)
  }

  lemma {:induction false} FirstHasID(keys: Keys, digests: seq<string>, id: string)
    requires forall d :: d in digests ==> d in keys
    ensures var r := FirstWithID(keys, digests, id);
            && (r.Some? ==> r.value in digests && keys[r.value].value.id == id)
            && (r.None? ==> forall d :: d in digests ==> keys[d].value.id != id)
  {
    if digests != [] && keys[digests[0]].value.id != id {
      FirstHasID(keys, digests[1..], id);
      assert forall d :: d in digests ==> d == digests[0] || d in digests[1..];
    }
  }

  /** The key that an ID names: the first in the order of digests. */
  ghost function Find(keys: Keys, id: string): (digest: Option<string>)
    ensures if digest.Some? then digest.value in keys && keys[digest.value].value.id == id
            else forall d :: d in keys ==> keys[d].value.id != id
  {
    FirstHasID(keys, Sorted(keys.Keys), id);
    FirstWithID(keys, Sorted(keys.Keys), id)
  }

  /** Of the keys with this ID, the one filed first. */
  ghost predicate Names(keys: Keys, id: string, d: string) {
    && d in keys && keys[d].value.id == id
    && forall e :: e in keys && keys[e].value.id == id ==> e == d || Less(d, e)
  }

  lemma {:induction false} FirstIsLeast(keys: Keys, digests: seq<string>, id: string)
    requires Ascending(digests) && forall d :: d in digests ==> d in keys
    ensures var r := FirstWithID(keys, digests, id);
            r.Some? ==> forall e :: e in digests && keys[e].value.id == id ==> e == r.value || Less(r.value, e)
  {
    if digests != [] && keys[digests[0]].value.id != id {
      FirstIsLeast(keys, digests[1..], id);
      assert forall e :: e in digests ==> e == digests[0] || e in digests[1..];
    }
  }

  lemma FindNames(keys: Keys, id: string)
    ensures var d := Find(keys, id);
            if d.Some? then Names(keys, id, d.value) else forall e :: e in keys ==> keys[e].value.id != id
  {
    FirstIsLeast(keys, Sorted(keys.Keys), id);
  }

  lemma OneIsNamed(keys: Keys, id: string, d: string, e: string)
    requires Names(keys, id, d) && Names(keys, id, e)
    ensures d == e
  {
    LessTotal(d, e);
  }

  predicate OtherRoot(keys: Keys, id: string) {
    exists d :: d in keys && keys[d].value.id != id && IsRoot(keys[d].value)
  }

  // ---- The commands ----

  function Created(keys: Keys, k: ServiceKey): Keys { keys[k.digest := Versioned(k, 1)] }

  /** The first of five random identities whose digest is not taken. */
  function Pick(keys: Keys, draw: nat -> Fresh, i: nat): Option<Fresh>
    requires i <= TRIES
    decreases TRIES - i
  {
    if i == TRIES then None else if draw(i).digest !in keys then Some(draw(i)) else Pick(keys, draw, i + 1)
  }

  function Create(w: World, keys: Keys, input: Input, draw: nat -> Fresh): Result<Keys> {
    var title, tenant, database := w.trim(input.title), w.trim(input.tenant), w.trim(input.database);
    var actions := w.normalize(input.actions);
    var identity := Pick(keys, draw, 0);
    if title == "" || |title| > MAX_TITLE || actions.None? then Err(Invalid)
    else if ScopeError(w, tenant, database).Some? then Err(ScopeError(w, tenant, database).value)
    else if identity.None? then Err(Internal)
    else Ok(Created(keys,
                    ServiceKey(identity.value.id, title, identity.value.digest, tenant, database, actions.value, true)))
  }

  /** The key after the change, or the error that refuses it. */
  function Changed(w: World, k: ServiceKey, change: Change): Result<ServiceKey> {
    var title := if change.title.Some? then w.trim(change.title.value) else k.title;
    var actions := if change.actions.Some? then w.normalize(change.actions.value) else Some(k.actions);
    if change.title.Some? && |title| > MAX_TITLE then Err(Invalid)
    else if actions.None? then Err(Invalid)
    else
      var enabled := if change.enabled.Some? then change.enabled.value else k.enabled;
      var changed := k.(title := title, actions := actions.value, enabled := enabled);
      if change.enabled == Some(true) && ScopeError(w, k.tenant, k.database).Some? then
        Err(ScopeError(w, k.tenant, k.database).value)
      else Ok(changed)
  }

  ghost function Update(w: World, keys: Keys, id: string, change: Change): Result<Keys> {
    if change == Change(None, None, None) then Err(Invalid)
    else
      var d := Find(keys, id);
      if d.None? then Err(NotFound)
      else
        var record := keys[d.value];
        var changed := Changed(w, record.value, change);
        if changed.Err? then Err(changed.code)
        else if IsRoot(record.value) && !IsRoot(changed.value) && !OtherRoot(keys, id) then Err(Conflict)
        else Ok(keys[record.value.digest := Versioned(changed.value, record.version + 1)])
  }

  const REVOKE: Change := Change(None, None, Some(false))

  /** Disable the old key and add its replacement, in one transaction. */
  ghost function Rotate(w: World, keys: Keys, id: string, draw: nat -> Fresh): Result<Keys> {
    var d := Find(keys, id);
    if d.None? then Err(NotFound)
    else
      var record := keys[d.value];
      var k := record.value;
      var identity := Pick(keys, draw, 0);
      if !k.enabled then Err(Conflict)
      else if ScopeError(w, k.tenant, k.database).Some? then Err(ScopeError(w, k.tenant, k.database).value)
      else if identity.None? then Err(Internal)
      else
        var replacement := k.(id := identity.value.id, digest := identity.value.digest);
        Ok(Created(keys[k.digest := Versioned(k.(enabled := false), record.version + 1)], replacement))
  }

  // ---- What every command keeps ----

  lemma {:induction false} PickIsFresh(keys: Keys, draw: nat -> Fresh, i: nat)
    requires i <= TRIES
    ensures var r := Pick(keys, draw, i); r.Some? ==> r.value.digest !in keys
    decreases TRIES - i
  {
    if i < TRIES && draw(i).digest in keys {
      PickIsFresh(keys, draw, i + 1);
    }
  }

  lemma CreateKeeps(w: World, keys: Keys, input: Input, draw: nat -> Fresh)
    requires Filed(keys) && Create(w, keys, input, draw).Ok?
    ensures Filed(Create(w, keys, input, draw).value) && Roots(keys) <= Roots(Create(w, keys, input, draw).value)
  {
    PickIsFresh(keys, draw, 0);
  }

  lemma UpdateKeeps(w: World, keys: Keys, id: string, change: Change)
    requires Filed(keys) && Update(w, keys, id, change).Ok?
    ensures var after := Update(w, keys, id, change).value;
            Filed(after) && (HasAdmin(keys) ==> HasAdmin(after))
  {
    var d := Find(keys, id).value;
    var after := Update(w, keys, id, change).value;
    var changed := Changed(w, keys[d].value, change).value;
    if HasAdmin(keys) {
      if IsRoot(keys[d].value) && !IsRoot(changed) {
        var other :| other in keys && keys[other].value.id != id && IsRoot(keys[other].value);
        assert other in after && IsRoot(after[other].value);
      } else {
        var root :| root in keys && IsRoot(keys[root].value);
        assert root in after && IsRoot(after[root].value);
      }
    }
  }

  /** Rotation moves the rights of one key to its replacement: as many global administrators as before. */
  lemma RotateKeepsNumber(w: World, keys: Keys, id: string, draw: nat -> Fresh)
    requires Filed(keys) && Rotate(w, keys, id, draw).Ok?
    ensures var after := Rotate(w, keys, id, draw).value;
            Filed(after) && |Roots(after)| == |Roots(keys)|
  {
    PickIsFresh(keys, draw, 0);
    var d := Find(keys, id).value;
    var added := Pick(keys, draw, 0).value.digest;
    var after := Rotate(w, keys, id, draw).value;
    HandOver(keys, d, added, keys[d].value.(enabled := false), after[added].value, after);
  }

  lemma RootsAfterPut(keys: Keys, d: string, record: Versioned<ServiceKey>)
    ensures Roots(keys[d := record]) == if IsRoot(record.value) then Roots(keys) + {d} else Roots(keys) - {d}
  {}

  /** One key disabled, one with its rights added. */
  lemma HandOver(keys: Keys, d: string, added: string, disabled: ServiceKey, replacement: ServiceKey, after: Keys)
    requires d in keys && added !in keys && !disabled.enabled && keys[d].value.enabled
    requires replacement.tenant == keys[d].value.tenant && replacement.database == keys[d].value.database
    requires replacement.actions == keys[d].value.actions && replacement.enabled
    requires after == keys[d := Versioned(disabled, keys[d].version + 1)][added := Versioned(replacement, 1)]
    ensures |Roots(after)| == |Roots(keys)|
  {
    var middle := keys[d := Versioned(disabled, keys[d].version + 1)];
    RootsAfterPut(keys, d, middle[d]);
    RootsAfterPut(middle, added, Versioned(replacement, 1));
    assert added !in Roots(keys);
    if IsRoot(keys[d].value) {
      assert d in Roots(keys);
    } else {
      assert Roots(keys) - {d} - {added} == Roots(keys);
    }
  }

  /** A rotation disables the old key and adds one with the same rights under a digest nobody used. */
  lemma RotateReplaces(w: World, keys: Keys, id: string, draw: nat -> Fresh)
    requires Filed(keys) && Rotate(w, keys, id, draw).Ok?
    ensures var after := Rotate(w, keys, id, draw).value;
            var d := Find(keys, id).value;
            exists added :: added !in keys && after.Keys == keys.Keys + {added}
              && after - {d, added} == keys - {d}
              && keys[d].value.enabled && after[d].value == keys[d].value.(enabled := false)
              && after[added].value == keys[d].value.(id := after[added].value.id, digest := added)
  {
    PickIsFresh(keys, draw, 0);
    var d, added := Find(keys, id).value, Pick(keys, draw, 0).value.digest;
    var after := Rotate(w, keys, id, draw).value;
    assert after - {d, added} == keys - {d};
  }

  // ---- What the commands do ----

  ghost predicate NothingChanges(error: Option<ErrorCode>, before: Keys, after: Keys) {
    error.Some? ==> after == before
  }

  /** The first of the five identities whose digest is not taken. */
  ghost predicate IsPick(keys: Keys, draw: nat -> Fresh, i: nat) {
    i < 5 && draw(i).digest !in keys && forall j :: 0 <= j < i ==> draw(j).digest in keys
  }

  lemma {:induction false} PickIsFirst(keys: Keys, draw: nat -> Fresh, i: nat)
    requires i <= TRIES && forall j :: 0 <= j < i ==> draw(j).digest in keys
    ensures var r := Pick(keys, draw, i);
            if r.Some? then exists k :: IsPick(keys, draw, k) && r.value == draw(k)
            else forall j :: 0 <= j < 5 ==> draw(j).digest in keys
    decreases TRIES - i
  {
    if i < TRIES {
      if draw(i).digest in keys {
        PickIsFirst(keys, draw, i + 1);
      } else {
        assert IsPick(keys, draw, i);
      }
    }
  }

  /** A creation is refused for a bad title or bad actions, for its scope, or because no digest is free;
      otherwise it adds one key, enabled and as asked, and nothing else changes. */
  ghost predicate CreateAnswers(w: World, keys: Keys, input: Input, draw: nat -> Fresh, error: Option<ErrorCode>,
                                after: Keys)
  {
    var title, actions := w.trim(input.title), w.normalize(input.actions);
    var tenant, database := w.trim(input.tenant), w.trim(input.database);
    var bad := title == "" || |title| > 120 || actions.None?;
    && NothingChanges(error, keys, after)
    && (error.None? <==> !bad && IsOpen(w, tenant, database) && exists i :: IsPick(keys, draw, i))
    && (error == Some(NotFound) <==> !bad && IsUnknown(w, tenant, database))
    && (error == Some(Internal) <==> !bad && IsOpen(w, tenant, database) && !exists i :: IsPick(keys, draw, i))
    && (error.Some? ==> error.value in {Invalid, NotFound, Internal})
    && (error.None? ==> exists i :: IsPick(keys, draw, i) && after == keys[draw(i).digest := Versioned(ServiceKey(
                          draw(i).id, title, draw(i).digest, tenant, database, actions.value, true), 1)])
  }

  lemma CreateTakesEffect(w: World, keys: Keys, input: Input, draw: nat -> Fresh)
    ensures var r := Create(w, keys, input, draw);
            CreateAnswers(w, keys, input, draw, ErrorOf(r), if r.Ok? then r.value else keys)
  {
    PickIsFirst(keys, draw, 0);
    ScopeErrorIs(w, w.trim(input.tenant), w.trim(input.database));
  }

  function ErrorOf<T>(r: Result<T>): Option<ErrorCode> { if r.Ok? then None else Some(r.code) }

  /** The key with what was asked for, and otherwise as it was. */
  predicate IsAsAsked(w: World, before: ServiceKey, change: Change, after: ServiceKey) {
    && after == before.(title := after.title, actions := after.actions, enabled := after.enabled)
    && after.title == (if change.title.Some? then w.trim(change.title.value) else before.title)
    && (if change.actions.Some? then w.normalize(change.actions.value) == Some(after.actions)
        else after.actions == before.actions)
    && after.enabled == (if change.enabled.Some? then change.enabled.value else before.enabled)
  }

  /** A title that is too long, or actions that are no actions. */
  predicate IsBad(w: World, change: Change) {
    || (change.title.Some? && |w.trim(change.title.value)| > 120)
    || (change.actions.Some? && w.normalize(change.actions.value).None?)
  }

  /** The change takes a global administrator's key out of use, or takes "*" off its actions. */
  predicate Demotes(w: World, k: ServiceKey, change: Change) {
    && k.enabled && k.tenant == "*" && k.database == "*" && "*" in k.actions
    && (change.enabled == Some(false)
        || (change.actions.Some? && w.normalize(change.actions.value).Some?
            && "*" !in w.normalize(change.actions.value).value))
  }

  /** Another key than those of this ID is a global administrator. */
  ghost predicate HasOtherAdmin(keys: Keys, id: string) {
    exists d :: d in keys && keys[d].value.id != id
                && keys[d].value.enabled && keys[d].value.tenant == "*" && keys[d].value.database == "*"
                && "*" in keys[d].value.actions
  }

  /** The answer to an update of the key that is filed under d. */
  ghost predicate Answers(w: World, keys: Keys, id: string, d: string, change: Change, error: Option<ErrorCode>)
    requires d in keys
  {
    var k := keys[d].value;
    var bad, enables := IsBad(w, change), change.enabled == Some(true);
    && (error == Some(NotFound) <==> !bad && enables && IsUnknown(w, k.tenant, k.database))
    && (error == Some(Conflict) <==> !bad && Demotes(w, k, change) && !HasOtherAdmin(keys, id))
    && (error.None? <==> !bad && (enables ==> IsOpen(w, k.tenant, k.database))
                         && (Demotes(w, k, change) ==> HasOtherAdmin(keys, id)))
    && (error.Some? ==> error.value in {Invalid, NotFound, Conflict})
  }

  /** An update without any change is refused, and one of an ID that no key has; otherwise the key named
      decides. A successful one leaves that key as asked, one version on, and all others alone. */
  ghost predicate UpdateAnswers(w: World, keys: Keys, id: string, change: Change, error: Option<ErrorCode>, after: Keys)
  {
    && NothingChanges(error, keys, after)
    && (if change.title.None? && change.actions.None? && change.enabled.None? then error == Some(Invalid)
        else if forall d :: d in keys ==> keys[d].value.id != id then error == Some(NotFound)
        else exists d :: Names(keys, id, d) && Answers(w, keys, id, d, change, error))
    && (error.None? ==> exists d :: Names(keys, id, d) && d in after && after == keys[d := after[d]]
                                    && after[d].version == keys[d].version + 1
                                    && IsAsAsked(w, keys[d].value, change, after[d].value))
  }

  lemma ChangedIsAsAsked(w: World, k: ServiceKey, change: Change)
    ensures var r := Changed(w, k, change);
            && (r.Ok? <==> !IsBad(w, change) && (change.enabled == Some(true) ==> IsOpen(w, k.tenant, k.database)))
            && (r.Ok? ==> IsAsAsked(w, k, change, r.value))
            && (r.Err? ==> r.code == if !IsBad(w, change) && IsUnknown(w, k.tenant, k.database) then NotFound
                                     else Invalid)
  {
    ScopeErrorIs(w, k.tenant, k.database);
  }

  lemma UpdateTakesEffect(w: World, keys: Keys, id: string, change: Change)
    requires Filed(keys)
    ensures var r := Update(w, keys, id, change);
            UpdateAnswers(w, keys, id, change, ErrorOf(r), if r.Ok? then r.value else keys)
  {
    FindNames(keys, id);
    var d := Find(keys, id);
    if d.Some? {
      ChangedIsAsAsked(w, keys[d.value].value, change);
      assert OtherRoot(keys, id) <==> HasOtherAdmin(keys, id);
      var r := Update(w, keys, id, change);
      if change != Change(None, None, None) {
        assert Answers(w, keys, id, d.value, change, ErrorOf(r));
      }
    }
  }

  /** A rotation is refused if no key has the ID, if the key named is disabled or its scope is not open any
      more, or if no digest is free; otherwise that key is disabled, and one with its title, scope and actions
      is added. */
  ghost predicate RotateAnswers(w: World, keys: Keys, id: string, draw: nat -> Fresh, error: Option<ErrorCode>,
                                after: Keys)
  {
    && NothingChanges(error, keys, after)
    && if forall d :: d in keys ==> keys[d].value.id != id then error == Some(NotFound)
       else exists d :: Names(keys, id, d) && RotatesOne(w, keys, d, draw, error, after)
  }

  ghost predicate RotatesOne(w: World, keys: Keys, d: string, draw: nat -> Fresh, error: Option<ErrorCode>, after: Keys)
    requires d in keys
  {
    var k := keys[d].value;
    var open := k.enabled && IsOpen(w, k.tenant, k.database);
    && (error == Some(Conflict) <==> !k.enabled)
    && (error == Some(NotFound) <==> k.enabled && IsUnknown(w, k.tenant, k.database))
    && (error == Some(Internal) <==> open && !exists i :: IsPick(keys, draw, i))
    && (error.None? <==> open && exists i :: IsPick(keys, draw, i))
    && (error.Some? ==> error.value in {Conflict, NotFound, Internal, Invalid})
    && (error.None? ==> exists i :: IsPick(keys, draw, i) && IsHandedOver(keys, d, draw(i), after))
  }

  /** The key is disabled, and one with its title, scope and actions is there under the new identity. */
  predicate IsHandedOver(keys: Keys, d: string, identity: Fresh, after: Keys)
    requires d in keys
  {
    var k := keys[d].value;
    after == keys[d := Versioned(k.(enabled := false), keys[d].version + 1)]
                 [identity.digest := Versioned(k.(id := identity.id, digest := identity.digest), 1)]
  }

  lemma RotateTakesEffect(w: World, keys: Keys, id: string, draw: nat -> Fresh)
    requires Filed(keys)
    ensures var r := Rotate(w, keys, id, draw);
            RotateAnswers(w, keys, id, draw, ErrorOf(r), if r.Ok? then r.value else keys)
  {
    FindNames(keys, id);
    if Find(keys, id).Some? {
      RotatesFound(w, keys, id, Find(keys, id).value, draw);
    }
  }

  lemma RotatesFound(w: World, keys: Keys, id: string, d: string, draw: nat -> Fresh)
    requires Filed(keys) && Find(keys, id) == Some(d)
    ensures var r := Rotate(w, keys, id, draw);
            RotatesOne(w, keys, d, draw, ErrorOf(r), if r.Ok? then r.value else keys)
  {
    PickIsFirst(keys, draw, 0);
    ScopeErrorIs(w, keys[d].value.tenant, keys[d].value.database);
    var r := Rotate(w, keys, id, draw);
    if r.Ok? {
      assert IsHandedOver(keys, d, Pick(keys, draw, 0).value, r.value);
    }
  }

  /** A revocation is refused if no key has the ID, or if it would take the last global administrator;
      otherwise the key named is disabled, and that is all. */
  lemma RevocationDisables(w: World, keys: Keys, id: string, error: Option<ErrorCode>, after: Keys)
    requires UpdateAnswers(w, keys, id, Change(None, None, Some(false)), error, after)
    ensures if forall d :: d in keys ==> keys[d].value.id != id then error == Some(NotFound) && after == keys
            else exists d :: Names(keys, id, d) && RevokesOne(keys, id, d, error, after)
  {
    if exists d :: d in keys && keys[d].value.id == id {
      var change := Change(None, None, Some(false));
      var d :| Names(keys, id, d) && Answers(w, keys, id, d, change, error);
      if error.None? {
        var e :| Names(keys, id, e) && e in after && after == keys[e := after[e]]
                 && after[e].version == keys[e].version + 1 && IsAsAsked(w, keys[e].value, change, after[e].value);
        OneIsNamed(keys, id, d, e);
      }
      NamedIsRevoked(w, keys, id, d, error, after);
    }
  }

  lemma NamedIsRevoked(w: World, keys: Keys, id: string, d: string, error: Option<ErrorCode>, after: Keys)
    requires d in keys && Answers(w, keys, id, d, Change(None, None, Some(false)), error)
    requires NothingChanges(error, keys, after)
    requires error.None? ==>
               d in after && after == keys[d := after[d]] && after[d].version == keys[d].version + 1
               && IsAsAsked(w, keys[d].value, Change(None, None, Some(false)), after[d].value)
    ensures RevokesOne(keys, id, d, error, after)
  {
    assert !IsBad(w, Change(None, None, Some(false)));
    if error.None? {
      assert after[d] == Versioned(keys[d].value.(enabled := false), keys[d].version + 1);
    }
  }

  ghost predicate RevokesOne(keys: Keys, id: string, d: string, error: Option<ErrorCode>, after: Keys)
    requires d in keys
  {
    var k := keys[d].value;
    var last := k.enabled && k.tenant == "*" && k.database == "*" && "*" in k.actions && !HasOtherAdmin(keys, id);
    && error == (if last then Some(Conflict) else None)
    && after == if last then keys else keys[d := Versioned(k.(enabled := false), keys[d].version + 1)]
  }

  datatype Command =
    | CreateKey(w: World, input: Input, draw: nat -> Fresh)
    | UpdateKey(w: World, id: string, change: Change)
    | RotateKey(w: World, id: string, draw: nat -> Fresh)

  /** The keys after a command; a refused command changes nothing. */
  ghost function Do(keys: Keys, c: Command): Keys {
    var r := match c
             case CreateKey(w, input, draw) => Create(w, keys, input, draw)
             case UpdateKey(w, id, change) => Update(w, keys, id, change)
             case RotateKey(w, id, draw) => Rotate(w, keys, id, draw);
    if r.Ok? then r.value else keys
  }

  ghost function DoAll(keys: Keys, commands: seq<Command>): Keys
    decreases |commands|
  {
    if commands == [] then keys else DoAll(Do(keys, commands[0]), commands[1..])
  }

  lemma NoneIsEmpty(a: set<string>, b: set<string>)
    requires |a| == |b|
    ensures a == {} <==> b == {}
  {}

  lemma AdminIsRoot(keys: Keys)
    ensures HasAdmin(keys) <==> Roots(keys) != {}
  {
    if HasAdmin(keys) {
      var d :| d in keys && IsRoot(keys[d].value);
      assert d in Roots(keys);
    }
    if Roots(keys) != {} {
      var d :| d in Roots(keys);
      assert d in keys && keys[d].value.enabled && "*" in keys[d].value.actions;
    }
  }

  lemma CommandKeepsAdmin(keys: Keys, c: Command)
    requires Filed(keys)
    ensures Filed(Do(keys, c)) && (HasAdmin(keys) ==> HasAdmin(Do(keys, c)))
  {
    AdminIsRoot(keys);
    AdminIsRoot(Do(keys, c));
    match c {
      case CreateKey(w, input, draw) =>
        if Create(w, keys, input, draw).Ok? { CreateKeeps(w, keys, input, draw); }
      case UpdateKey(w, id, change) =>
        if Update(w, keys, id, change).Ok? { UpdateKeeps(w, keys, id, change); }
      case RotateKey(w, id, draw) =>
        if Rotate(w, keys, id, draw).Ok? {
          RotateKeepsNumber(w, keys, id, draw);
          NoneIsEmpty(Roots(keys), Roots(Do(keys, c)));
        }
    }
  }

  /** Once there is a global administrator, no sequence of commands, with whatever tenants and
      whatever IDs, leaves the server without one. */
  lemma {:induction false} LastAdminSurvives(keys: Keys, commands: seq<Command>)
    requires Filed(keys) && HasAdmin(keys)
    ensures Filed(DoAll(keys, commands)) && HasAdmin(DoAll(keys, commands))
    decreases |commands|
  {
    if commands != [] {
      CommandKeepsAdmin(keys, commands[0]);
      LastAdminSurvives(Do(keys, commands[0]), commands[1..]);
    }
  }

  // ---- The commands as they run ----

  class Manager {
    var keys: Keys

    constructor (keys: Keys)
      requires Filed(keys)
      ensures this.keys == keys
    {
      this.keys := keys;
    }

    method GetKey(id: string) returns (digest: Option<string>)
      ensures digest == Find(keys, id)
      ensures if digest.Some? then Names(keys, id, digest.value) else forall d :: d in keys ==> keys[d].value.id != id
    {
      FindNames(keys, id);
      var digests := SortKeys(keys.Keys);
      SortedUnique(digests, Sorted(keys.Keys), keys.Keys);
      FirstHasID(keys, digests, id);
      var i := 0;
      while i < |digests|
        invariant 0 <= i <= |digests|
        invariant FirstWithID(keys, digests[i..], id) == Find(keys, id)
      {
        if keys[digests[i]].value.id == id { return Some(digests[i]); }
        assert digests[i..][1..] == digests[i + 1..];
        i := i + 1;
      }
      digest := None;
    }

    method EnsureAnotherRoot(excluded: string) returns (error: Option<ErrorCode>)
      ensures error == if HasOtherAdmin(keys, excluded) then None else Some(Conflict)
    {
      assert OtherRoot(keys, excluded) <==> HasOtherAdmin(keys, excluded);
      var digests := SortKeys(keys.Keys);
      var i := 0;
      while i < |digests|
        invariant 0 <= i <= |digests|
        invariant forall j :: 0 <= j < i ==> keys[digests[j]].value.id == excluded || !IsRoot(keys[digests[j]].value)
      {
        var k := keys[digests[i]].value;
        if k.id != excluded && IsRoot(k) { return None; }
        i := i + 1;
      }
      error := Some(Conflict);
    }

    method NewIdentity(draw: nat -> Fresh) returns (identity: Option<Fresh>)
      ensures identity == Pick(keys, draw, 0)
      ensures if identity.Some? then exists i :: IsPick(keys, draw, i) && identity.value == draw(i)
              else forall i :: 0 <= i < 5 ==> draw(i).digest in keys
    {
      PickIsFirst(keys, draw, 0);
      var attempt := 0;
      while attempt < TRIES
        invariant 0 <= attempt <= TRIES && Pick(keys, draw, attempt) == Pick(keys, draw, 0)
      {
        if draw(attempt).digest !in keys { return Some(draw(attempt)); }
        attempt := attempt + 1;
      }
      identity := None;
    }

    method CreateKey(w: World, input: Input, draw: nat -> Fresh) returns (error: Option<ErrorCode>)
      requires Filed(keys)
      modifies this
      ensures keys == Do(old(keys), Command.CreateKey(w, input, draw))
      ensures CreateAnswers(w, old(keys), input, draw, error, keys)
    {
      CreateTakesEffect(w, keys, input, draw);
      var title, tenant, database := w.trim(input.title), w.trim(input.tenant), w.trim(input.database);
      if title == "" || |title| > MAX_TITLE { return Some(Invalid); }
      var actions := w.normalize(input.actions);
      if actions.None? { return Some(Invalid); }
      error := ScopeError(w, tenant, database);
      if error.Some? { return; }
      var identity := NewIdentity(draw);
      if identity.None? { return Some(Internal); }
      var key := ServiceKey(identity.value.id, title, identity.value.digest, tenant, database, actions.value, true);
      keys := keys[key.digest := Versioned(key, 1)];
    }

    /** Apply the requested changes to a copy of the key, field by field. */
    method ChangeFields(w: World, before: ServiceKey, change: Change) returns (r: Result<ServiceKey>)
      ensures r == Changed(w, before, change)
      ensures r.Ok? ==> IsAsAsked(w, before, change, r.value)
    {
      var k := before;
      if change.title.Some? {
        k := k.(title := w.trim(change.title.value));
        if |k.title| > MAX_TITLE { return Err(Invalid); }
      }
      if change.actions.Some? {
        var actions := w.normalize(change.actions.value);
        if actions.None? { return Err(Invalid); }
        k := k.(actions := actions.value);
      }
      if change.enabled.Some? {
        k := k.(enabled := change.enabled.value);
        if k.enabled {
          var error := ScopeError(w, k.tenant, k.database);
          if error.Some? { return Err(error.value); }
        }
      }
      r := Ok(k);
    }

    method UpdateKey(w: World, id: string, change: Change) returns (error: Option<ErrorCode>)
      requires Filed(keys)
      modifies this
      ensures keys == Do(old(keys), Command.UpdateKey(w, id, change))
      ensures UpdateAnswers(w, old(keys), id, change, error, keys)
    {
      UpdateTakesEffect(w, keys, id, change);
      if change == Change(None, None, None) { return Some(Invalid); }
      var d := GetKey(id);
      if d.None? { return Some(NotFound); }
      var record := keys[d.value];
      var changed := ChangeFields(w, record.value, change);
      if changed.Err? { return Some(changed.code); }
      if IsRoot(record.value) && !IsRoot(changed.value) {
        error := EnsureAnotherRoot(id);
        if error.Some? { return; }
      }
      keys := keys[record.value.digest := Versioned(changed.value, record.version + 1)];
      error := None;
    }

    method RevokeKey(w: World, id: string) returns (error: Option<ErrorCode>)
      requires Filed(keys)
      modifies this
      ensures keys == Do(old(keys), Command.UpdateKey(w, id, REVOKE))
      ensures if forall d :: d in old(keys) ==> old(keys)[d].value.id != id
              then error == Some(NotFound) && keys == old(keys)
              else exists d :: Names(old(keys), id, d) && RevokesOne(old(keys), id, d, error, keys)
    {
      error := UpdateKey(w, id, Change(None, None, Some(false)));
      RevocationDisables(w, old(keys), id, error, keys);
    }

    method RotateKey(w: World, id: string, draw: nat -> Fresh) returns (error: Option<ErrorCode>)
      requires Filed(keys)
      modifies this
      ensures keys == Do(old(keys), Command.RotateKey(w, id, draw))
      ensures RotateAnswers(w, old(keys), id, draw, error, keys)
    {
      RotateTakesEffect(w, keys, id, draw);
      var d := GetKey(id);
      if d.None? { return Some(NotFound); }
      var version, outgoing := keys[d.value].version, keys[d.value].value;
      if !outgoing.enabled { return Some(Conflict); }
      error := ScopeError(w, outgoing.tenant, outgoing.database);
      if error.Some? { return; }
      var identity := NewIdentity(draw);
      if identity.None? { return Some(Internal); }
      var replacement := ServiceKey(identity.value.id, outgoing.title, identity.value.digest, outgoing.tenant,
                                    outgoing.database, outgoing.actions, true);
      keys := keys[outgoing.digest := Versioned(outgoing.(enabled := false), version + 1)]
                  [replacement.digest := Versioned(replacement, 1)];
    }
  }
}
