/** The control store: a table of rows in a local database, updated in transactions.
    One loop checks every mutation against the starting rows, a second loop writes. */
module BarqStore {
  import opened Results
  import opened Text
  import opened Keys
  import opened Table
  import Sorting

  datatype Ident = Ident(collection: string, key: string)

  datatype Row<+V> = Row(collection: string, key: string, value: V, version: nat)

  /** What can go wrong outside the store's own checks: the caller's context is cancelled, or the
      native database fails at the lookup or at the write with this number. */
  datatype Fault = NoFault | Cancelled | FindFails(at: nat) | WriteFails(at: nat)

  datatype PendingMutation<V> = Pending(mutation: Mutation<Ident, V>, found: bool, next: nat)

  function IdOf(k: Ident): string { RecordID(k.collection, k.key) }

  ghost predicate WellKeyed<V>(rows: map<string, Row<V>>) {
    forall id :: id in rows ==> id == RecordID(rows[id].collection, rows[id].key)
  }

  /** The rows seen as a map from (collection, key) to a versioned value. */
  ghost function Contents<V>(rows: map<string, Row<V>>): map<Ident, Versioned<V>>
    requires WellKeyed(rows)
  {
    map id | id in rows :: Ident(rows[id].collection, rows[id].key) := Versioned(rows[id].value, rows[id].version)
  }

  lemma IdInjective(a: Ident, b: Ident)
    requires IdOf(a) == IdOf(b)
    ensures a == b
  {
    RecordIDInjective(a.collection, a.key, b.collection, b.key);
  }

  lemma Lookup<V>(rows: map<string, Row<V>>, k: Ident)
    requires WellKeyed(rows)
    ensures k in Contents(rows) <==> IdOf(k) in rows
    ensures k in Contents(rows) ==> Contents(rows)[k] == Versioned(rows[IdOf(k)].value, rows[IdOf(k)].version)
  {
    if IdOf(k) in rows {
      IdInjective(k, Ident(rows[IdOf(k)].collection, rows[IdOf(k)].key));
    }
  }

  // ---- Which transactions are accepted, and with which error the others fail ----

  predicate WellFormed<V>(m: Mutation<Ident, V>, jsonValid: V -> bool) {
    m.key.collection != "" && m.key.key != "" && m.op != Unknown && (m.op.Put? ==> jsonValid(m.value))
  }

  ghost predicate Accepted<V>(t: map<Ident, Versioned<V>>, ms: seq<Mutation<Ident, V>>, jsonValid: V -> bool) {
    Admissible(t, ms) && forall i :: 0 <= i < |ms| ==> WellFormed(ms[i], jsonValid)
  }

  predicate Repeats<V>(ms: seq<Mutation<Ident, V>>, i: nat)
    requires i < |ms|
  {
    exists j | 0 <= j < i :: ms[j].key == ms[i].key
  }

  /** The first complaint about mutation i, judged against the starting state. */
  function Complaint<V>(t: map<Ident, Versioned<V>>, ms: seq<Mutation<Ident, V>>, i: nat,
                        jsonValid: V -> bool): Option<ErrorCode>
    requires i < |ms|
  {
    var m := ms[i];
    if !WellFormed(m, jsonValid) || Repeats(ms, i) then Some(Invalid)
    else if m.op.Delete? && m.key !in t then Some(NotFound)
    else if !Meets(t, m) then Some(Conflict)
    else None
  }

  function FirstComplaint<V>(t: map<Ident, Versioned<V>>, ms: seq<Mutation<Ident, V>>, i: nat,
                             jsonValid: V -> bool): Option<ErrorCode>
    requires i <= |ms|
    decreases |ms| - i
  {
    if i == |ms| then None
    else
      var c := Complaint(t, ms, i, jsonValid);
      if c.Some? then c else FirstComplaint(t, ms, i + 1, jsonValid)
  }

  function Verdict<V>(t: map<Ident, Versioned<V>>, ms: seq<Mutation<Ident, V>>,
                      jsonValid: V -> bool): Option<ErrorCode> {
    if |ms| == 0 || |ms| > MAX_MUTATIONS then Some(Invalid) else FirstComplaint(t, ms, 0, jsonValid)
  }

  /** The same when the native database may fail to look the record up. */
  function Obstacle<V>(t: map<Ident, Versioned<V>>, ms: seq<Mutation<Ident, V>>, i: nat, jsonValid: V -> bool,
                       fault: Fault): Option<ErrorCode>
    requires i < |ms|
  {
    if fault == FindFails(i) && WellFormed(ms[i], jsonValid) && !Repeats(ms, i) then Some(Internal)
    else Complaint(t, ms, i, jsonValid)
  }

  function FirstObstacle<V>(t: map<Ident, Versioned<V>>, ms: seq<Mutation<Ident, V>>, i: nat, jsonValid: V -> bool,
                            fault: Fault): Option<ErrorCode>
    requires i <= |ms|
    decreases |ms| - i
  {
    if i == |ms| then None
    else
      var o := Obstacle(t, ms, i, jsonValid, fault);
      if o.Some? then o else FirstObstacle(t, ms, i + 1, jsonValid, fault)
  }

  /** With which code, if any, a transaction ends, whatever goes wrong outside. */
  function Refusal<V>(t: map<Ident, Versioned<V>>, ms: seq<Mutation<Ident, V>>, jsonValid: V -> bool,
                      fault: Fault): Option<ErrorCode> {
    if |ms| == 0 || |ms| > MAX_MUTATIONS then Some(Invalid)
    else if fault.Cancelled? then Some(Internal)
    else
      var o := FirstObstacle(t, ms, 0, jsonValid, fault);
      if o.Some? then o else if fault.WriteFails? && fault.at < |ms| then Some(Internal) else None
  }

  lemma {:induction false} ObstaclesAreComplaints<V>(t: map<Ident, Versioned<V>>, ms: seq<Mutation<Ident, V>>, i: nat,
                                                     jsonValid: V -> bool, fault: Fault)
    requires i <= |ms|
    ensures FirstObstacle(t, ms, i, jsonValid, fault).None? ==> FirstComplaint(t, ms, i, jsonValid).None?
    ensures !fault.FindFails? ==> FirstObstacle(t, ms, i, jsonValid, fault) == FirstComplaint(t, ms, i, jsonValid)
    decreases |ms| - i
  {
    if i < |ms| {
      ObstaclesAreComplaints(t, ms, i + 1, jsonValid, fault);
    }
  }

  /** Outside faults only ever add refusals, and without one the verdict stands. */
  lemma RefusalFollowsVerdict<V>(t: map<Ident, Versioned<V>>, ms: seq<Mutation<Ident, V>>, jsonValid: V -> bool,
                                 fault: Fault)
    ensures Refusal(t, ms, jsonValid, fault).None? ==> Verdict(t, ms, jsonValid).None?
    ensures fault.NoFault? ==> Refusal(t, ms, jsonValid, fault) == Verdict(t, ms, jsonValid)
  {
    if 1 <= |ms| <= MAX_MUTATIONS {
      ObstaclesAreComplaints(t, ms, 0, jsonValid, fault);
    }
  }

  lemma {:induction false} NoComplaint<V>(t: map<Ident, Versioned<V>>, ms: seq<Mutation<Ident, V>>, i: nat,
                                          jsonValid: V -> bool)
    requires i <= |ms|
    ensures FirstComplaint(t, ms, i, jsonValid).None? <==>
              forall j :: i <= j < |ms| ==> Complaint(t, ms, j, jsonValid).None?
    decreases |ms| - i
  {
    if i < |ms| {
      NoComplaint(t, ms, i + 1, jsonValid);
    }
  }

  /** The store complains about nothing exactly when the mutations are well formed, target
      distinct records and meet their conditions in the starting state. */
  lemma VerdictIsAcceptance<V>(t: map<Ident, Versioned<V>>, ms: seq<Mutation<Ident, V>>, jsonValid: V -> bool)
    ensures Verdict(t, ms, jsonValid).None? <==> Accepted(t, ms, jsonValid)
  {
    if 1 <= |ms| <= MAX_MUTATIONS {
      NoComplaint(t, ms, 0, jsonValid);
      if Accepted(t, ms, jsonValid) {
        forall j | 0 <= j < |ms|
          ensures Complaint(t, ms, j, jsonValid).None?
        {
          assert WellFormed(ms[j], jsonValid) && Meets(t, ms[j]) && !Repeats(ms, j);
        }
      }
      if forall j :: 0 <= j < |ms| ==> Complaint(t, ms, j, jsonValid).None? {
        forall i, j | 0 <= i < j < |ms|
          ensures ms[i].key != ms[j].key
        {
          assert Complaint(t, ms, j, jsonValid).None?;
          assert !Repeats(ms, j);
        }
        forall i | 0 <= i < |ms|
          ensures WellFormed(ms[i], jsonValid) && ms[i].op != Unknown && Meets(t, ms[i])
        {
          assert Complaint(t, ms, i, jsonValid).None?;
        }
      }
    }
  }

  // ---- The write loop's progress, row by row ----

  function RowVersion<V>(rows: map<string, Row<V>>, k: Ident): nat {
    if IdOf(k) in rows then rows[IdOf(k)].version else 0
  }

  // ---- The same, said of the mutations themselves ----

  /** No record can be meant, nothing known is asked for, or the value is not JSON. */
  ghost predicate Malformed<V>(m: Mutation<Ident, V>, jsonValid: V -> bool) {
    m.key.collection == "" || m.key.key == "" || m.op.Unknown? || (m.op.Put? && !jsonValid(m.value))
  }

  /** Malformed, or not the first for its record. */
  ghost predicate Improper<V>(ms: seq<Mutation<Ident, V>>, i: nat, jsonValid: V -> bool)
    requires i < |ms|
  {
    Malformed(ms[i], jsonValid) || exists j :: 0 <= j < i && ms[j].key == ms[i].key
  }

  ghost predicate DeletesNothing<V>(t: map<Ident, Versioned<V>>, m: Mutation<Ident, V>) {
    m.op.Delete? && m.key !in t
  }

  /** The caller expects no record and there is one, or expects a version that is not there. */
  ghost predicate IsMissed(expected: Option<nat>, found: bool, current: nat) {
    expected.Some? && if found then expected.value == 0 || expected.value != current else expected.value != 0
  }

  ghost predicate Misses<V>(t: map<Ident, Versioned<V>>, m: Mutation<Ident, V>) {
    IsMissed(m.expected, m.key in t, if m.key in t then t[m.key].version else 0)
  }

  /** The transaction cannot get past this mutation. */
  ghost predicate Stops<V>(t: map<Ident, Versioned<V>>, ms: seq<Mutation<Ident, V>>, i: nat, jsonValid: V -> bool,
                           fault: Fault)
    requires i < |ms|
  {
    Improper(ms, i, jsonValid) || DeletesNothing(t, ms[i]) || Misses(t, ms[i]) || fault == FindFails(i)
  }

  ghost predicate StopsFirst<V>(t: map<Ident, Versioned<V>>, ms: seq<Mutation<Ident, V>>, i: nat, jsonValid: V -> bool,
                                fault: Fault) {
    i < |ms| && Stops(t, ms, i, jsonValid, fault) && forall j: nat :: j < i ==> !Stops(t, ms, j, jsonValid, fault)
  }

  /** The code says why the transaction stopped there. */
  ghost predicate Explains<V>(t: map<Ident, Versioned<V>>, ms: seq<Mutation<Ident, V>>, i: nat, jsonValid: V -> bool,
                              fault: Fault, code: ErrorCode)
    requires i < |ms|
  {
    var looked := !Improper(ms, i, jsonValid) && fault != FindFails(i);
    && (code == Invalid <==> Improper(ms, i, jsonValid))
    && (code == Internal <==> !Improper(ms, i, jsonValid) && fault == FindFails(i))
    && (code == NotFound <==> looked && DeletesNothing(t, ms[i]))
    && (code == Conflict <==> looked && !DeletesNothing(t, ms[i]) && Misses(t, ms[i]))
  }

  lemma ObstacleExplains<V>(t: map<Ident, Versioned<V>>, ms: seq<Mutation<Ident, V>>, i: nat, jsonValid: V -> bool,
                            fault: Fault)
    requires i < |ms|
    ensures var o := Obstacle(t, ms, i, jsonValid, fault);
            if Stops(t, ms, i, jsonValid, fault) then o.Some? && Explains(t, ms, i, jsonValid, fault, o.value)
            else o.None?
  {
    assert WellFormed(ms[i], jsonValid) <==> !Malformed(ms[i], jsonValid);
  }

  /** A transaction of 1 to 100 mutations ends at the first mutation that stops it, with the code
      that says why; if none does, only a write can fail. */
  lemma {:induction false} FirstStopDecides<V>(t: map<Ident, Versioned<V>>, ms: seq<Mutation<Ident, V>>, from: nat,
                                               jsonValid: V -> bool, fault: Fault)
    requires from <= |ms| && forall j: nat :: j < from ==> !Stops(t, ms, j, jsonValid, fault)
    ensures var o := FirstObstacle(t, ms, from, jsonValid, fault);
            && (forall i: nat :: StopsFirst(t, ms, i, jsonValid, fault) ==>
                  o.Some? && Explains(t, ms, i, jsonValid, fault, o.value))
            && ((forall i: nat :: i < |ms| ==> !Stops(t, ms, i, jsonValid, fault)) ==> o.None?)
    decreases |ms| - from
  {
    if from < |ms| {
      ObstacleExplains(t, ms, from, jsonValid, fault);
      if !Stops(t, ms, from, jsonValid, fault) {
        FirstStopDecides(t, ms, from + 1, jsonValid, fault);
      }
    }
  }

  /** The answer to a transaction, by its mutations alone. */
  ghost predicate Answers<V>(t: map<Ident, Versioned<V>>, ms: seq<Mutation<Ident, V>>, jsonValid: V -> bool,
                             fault: Fault, code: Option<ErrorCode>) {
    if |ms| < 1 || |ms| > 100 then code == Some(Invalid)
    else if fault.Cancelled? then code == Some(Internal)
    else
      && (forall i: nat :: StopsFirst(t, ms, i, jsonValid, fault) ==>
            code.Some? && Explains(t, ms, i, jsonValid, fault, code.value))
      && ((forall i: nat :: i < |ms| ==> !Stops(t, ms, i, jsonValid, fault)) ==>
            code == if fault.WriteFails? && fault.at < |ms| then Some(Internal) else None)
  }

  lemma RefusalAnswers<V>(t: map<Ident, Versioned<V>>, ms: seq<Mutation<Ident, V>>, jsonValid: V -> bool, fault: Fault)
    ensures Answers(t, ms, jsonValid, fault, Refusal(t, ms, jsonValid, fault))
  {
    FirstStopDecides(t, ms, 0, jsonValid, fault);
  }

  /** One mutation is stopped by itself or not at all. */
  lemma OneAnswer<V>(t: map<Ident, Versioned<V>>, m: Mutation<Ident, V>, jsonValid: V -> bool,
                     code: Option<ErrorCode>)
    requires Answers(t, [m], jsonValid, NoFault, code)
    ensures code == if Malformed(m, jsonValid) then Some(Invalid) else if DeletesNothing(t, m) then Some(NotFound)
                    else if Misses(t, m) then Some(Conflict) else None
  {
    var ms := [m];
    assert ms[0] == m && (Improper(ms, 0, jsonValid) <==> Malformed(m, jsonValid));
    if Stops(t, ms, 0, jsonValid, NoFault) {
      assert StopsFirst(t, ms, 0, jsonValid, NoFault);
    }
  }

  lemma AnswerToOne<V>(t: map<Ident, Versioned<V>>, m: Mutation<Ident, V>, jsonValid: V -> bool)
    requires !Malformed(m, jsonValid)
    ensures Answers(t, [m], jsonValid, NoFault,
                    if DeletesNothing(t, m) then Some(NotFound) else if Misses(t, m) then Some(Conflict) else None)
  {
    RefusalAnswers(t, [m], jsonValid, NoFault);
    OneAnswer(t, m, jsonValid, Refusal(t, [m], jsonValid, NoFault));
  }

  function Targets<V>(ms: seq<Mutation<Ident, V>>): set<string> { set j | 0 <= j < |ms| :: IdOf(ms[j].key) }

  function RowFor<V>(rows: map<string, Row<V>>, m: Mutation<Ident, V>): Row<V> {
    Row(m.key.collection, m.key.key, m.value, RowVersion(rows, m.key) + 1)
  }

  /** The records a successful transaction returns: one for each put, in order. */
  function PutRows<V>(rows: map<string, Row<V>>, ms: seq<Mutation<Ident, V>>): seq<Row<V>> {
    if ms == [] then []
    else
      var m := ms[|ms| - 1];
      PutRows(rows, ms[..|ms| - 1]) + if m.op.Put? then [RowFor(rows, m)] else []
  }

  lemma PutRowsOfOne<V>(rows: map<string, Row<V>>, m: Mutation<Ident, V>)
    requires m.op.Put?
    ensures PutRows(rows, [m]) == [RowFor(rows, m)]
  {
    assert [m][..0] == [];
  }

  /** tx is rows with the given mutations written. */
  ghost predicate Written<V>(rows: map<string, Row<V>>, ms: seq<Mutation<Ident, V>>, tx: map<string, Row<V>>) {
    && (forall j :: 0 <= j < |ms| && ms[j].op.Put? ==>
          IdOf(ms[j].key) in tx && tx[IdOf(ms[j].key)] == RowFor(rows, ms[j]))
    && (forall j :: 0 <= j < |ms| && ms[j].op.Delete? ==> IdOf(ms[j].key) !in tx)
    && (forall id :: id in tx && id !in Targets(ms) ==> id in rows && tx[id] == rows[id])
    && (forall id :: id in rows && id !in Targets(ms) ==> id in tx)
  }

  lemma WriteNext<V>(rows: map<string, Row<V>>, ms: seq<Mutation<Ident, V>>, m: Mutation<Ident, V>,
                     tx: map<string, Row<V>>, tx': map<string, Row<V>>)
    requires Written(rows, ms, tx) && m.op != Unknown
    requires forall j :: 0 <= j < |ms| ==> ms[j].key != m.key
    requires tx' == if m.op.Delete? then tx - {IdOf(m.key)} else tx[IdOf(m.key) := RowFor(rows, m)]
    ensures Written(rows, ms + [m], tx')
  {
    forall j | 0 <= j < |ms|
      ensures IdOf(ms[j].key) != IdOf(m.key)
    {
      if IdOf(ms[j].key) == IdOf(m.key) {
        IdInjective(ms[j].key, m.key);
      }
    }
    var all := ms + [m];
    assert Targets(all) == Targets(ms) + {IdOf(m.key)} by {
      forall id | id in Targets(ms) ensures id in Targets(all) {
        var j :| 0 <= j < |ms| && IdOf(ms[j].key) == id;
        assert all[j] == ms[j];
      }
      assert all[|ms|] == m;
    }
  }

  lemma WrittenKeepsKeys<V>(rows: map<string, Row<V>>, ms: seq<Mutation<Ident, V>>, tx: map<string, Row<V>>)
    requires WellKeyed(rows) && Written(rows, ms, tx)
    requires forall i :: 0 <= i < |ms| ==> ms[i].op != Unknown
    ensures WellKeyed(tx)
  {
    forall id | id in tx
      ensures id == RecordID(tx[id].collection, tx[id].key)
    {
      if id in Targets(ms) {
        var j :| 0 <= j < |ms| && IdOf(ms[j].key) == id;
        assert ms[j].op.Put?;
      }
    }
  }

  /** When every mutation has been written, the rows are the atomic update. */
  lemma WrittenIsUpdate<V>(rows: map<string, Row<V>>, ms: seq<Mutation<Ident, V>>, tx: map<string, Row<V>>)
    requires WellKeyed(rows) && WellKeyed(tx) && Written(rows, ms, tx)
    requires forall i :: 0 <= i < |ms| ==> ms[i].op != Unknown
    ensures AtomicUpdate(Contents(rows), ms, Contents(tx))
  {
    var before, after := Contents(rows), Contents(tx);
    forall i | 0 <= i < |ms| && ms[i].op.Put?
      ensures ms[i].key in after && after[ms[i].key] == Versioned(ms[i].value, VersionOf(before, ms[i].key) + 1)
    {
      Lookup(tx, ms[i].key);
      Lookup(rows, ms[i].key);
    }
    forall k
      ensures k in after <==> Puts(ms, k) || (k in before && !Deletes(ms, k))
      ensures k in before && !Puts(ms, k) && !Deletes(ms, k) ==> k in after && after[k] == before[k]
    {
      UpdateAt(rows, ms, tx, k);
    }
  }

  lemma UpdateAt<V>(rows: map<string, Row<V>>, ms: seq<Mutation<Ident, V>>, tx: map<string, Row<V>>, k: Ident)
    requires WellKeyed(rows) && WellKeyed(tx) && Written(rows, ms, tx)
    requires forall i :: 0 <= i < |ms| ==> ms[i].op != Unknown
    ensures k in Contents(tx) <==> Puts(ms, k) || (k in Contents(rows) && !Deletes(ms, k))
    ensures k in Contents(rows) && !Puts(ms, k) && !Deletes(ms, k) ==>
              k in Contents(tx) && Contents(tx)[k] == Contents(rows)[k]
  {
    Lookup(rows, k);
    Lookup(tx, k);
    if IdOf(k) in Targets(ms) {
      var j :| 0 <= j < |ms| && IdOf(ms[j].key) == IdOf(k);
      IdInjective(ms[j].key, k);
      if ms[j].op.Put? {
        assert Puts(ms, k);
      } else {
        assert Deletes(ms, k);
        forall i | 0 <= i < |ms| && ms[i].op.Put? ensures ms[i].key != k {}
      }
    } else {
      forall j | 0 <= j < |ms| ensures ms[j].key != k { assert IdOf(ms[j].key) in Targets(ms); }
      assert !Puts(ms, k) && !Deletes(ms, k);
    }
  }

  /** The judgement about one mutation, given the records already targeted and the row found for it. */
  function Judge<V>(m: Mutation<Ident, V>, seen: set<string>, found: bool, current: nat,
                    jsonValid: V -> bool): Option<ErrorCode> {
    if !WellFormed(m, jsonValid) || IdOf(m.key) in seen then Some(Invalid)
    else if m.op.Delete? && !found then Some(NotFound)
    else if m.expected.Some? && ((m.expected.value == 0 && found) ||
                                 (m.expected.value != 0 && (!found || current != m.expected.value))) then Some(Conflict)
    else None
  }

  lemma Judged<V>(rows: map<string, Row<V>>, ms: seq<Mutation<Ident, V>>, i: nat, jsonValid: V -> bool)
    requires WellKeyed(rows) && i < |ms|
    ensures Complaint(Contents(rows), ms, i, jsonValid)
            == Judge(ms[i], Targets(ms[..i]), IdOf(ms[i].key) in rows, RowVersion(rows, ms[i].key), jsonValid)
    ensures Repeats(ms, i) <==> IdOf(ms[i].key) in Targets(ms[..i])
    ensures Targets(ms[..i + 1]) == Targets(ms[..i]) + {IdOf(ms[i].key)}
  {
    Lookup(rows, ms[i].key);
    SeenMeansDuplicate(ms, i);
  }

  /** The judgement, if the lookup that it takes may fail. */
  function JudgeOrFail<V>(rows: map<string, Row<V>>, m: Mutation<Ident, V>, seen: set<string>, findFails: bool,
                          jsonValid: V -> bool): Option<ErrorCode> {
    if findFails && WellFormed(m, jsonValid) && IdOf(m.key) !in seen then Some(Internal)
    else Judge(m, seen, IdOf(m.key) in rows, RowVersion(rows, m.key), jsonValid)
  }

  /** The records that the first i mutations target. */
  function SeenBefore<V>(ms: seq<Mutation<Ident, V>>, i: nat): set<string>
    requires i <= |ms|
  {
    if i == 0 then {} else SeenBefore(ms, i - 1) + {IdOf(ms[i - 1].key)}
  }

  lemma {:induction false} SeenAreTargets<V>(ms: seq<Mutation<Ident, V>>, i: nat)
    requires i <= |ms|
    ensures SeenBefore(ms, i) == Targets(ms[..i])
  {
    if i == 0 {
      assert Targets(ms[..0]) == {};
    } else {
      SeenAreTargets(ms, i - 1);
      SeenMeansDuplicate(ms, i - 1);
    }
  }

  /** The first i mutations pass every check. */
  ghost predicate Clear<V>(rows: map<string, Row<V>>, ms: seq<Mutation<Ident, V>>, i: nat, jsonValid: V -> bool,
                           fault: Fault)
    requires i <= |ms|
  {
    i == 0
    || (Clear(rows, ms, i - 1, jsonValid, fault)
        && JudgeOrFail(rows, ms[i - 1], SeenBefore(ms, i - 1), fault == FindFails(i - 1), jsonValid).None?)
  }

  lemma ObstacleIsJudged<V>(rows: map<string, Row<V>>, ms: seq<Mutation<Ident, V>>, i: nat, jsonValid: V -> bool,
                            fault: Fault)
    requires WellKeyed(rows) && i < |ms|
    ensures Obstacle(Contents(rows), ms, i, jsonValid, fault) ==
            JudgeOrFail(rows, ms[i], SeenBefore(ms, i), fault == FindFails(i), jsonValid)
  {
    SeenAreTargets(ms, i);
    Judged(rows, ms, i, jsonValid);
  }

  lemma {:induction false} ClearSoFar<V>(rows: map<string, Row<V>>, ms: seq<Mutation<Ident, V>>, i: nat,
                                         jsonValid: V -> bool, fault: Fault)
    requires WellKeyed(rows) && i <= |ms| && Clear(rows, ms, i, jsonValid, fault)
    ensures FirstObstacle(Contents(rows), ms, 0, jsonValid, fault) ==
            FirstObstacle(Contents(rows), ms, i, jsonValid, fault)
  {
    if i > 0 {
      ClearSoFar(rows, ms, i - 1, jsonValid, fault);
      ObstacleIsJudged(rows, ms, i - 1, jsonValid, fault);
    }
  }

  /** Where the first loop stops, it has found the first obstacle. */
  lemma StopsAtObstacle<V>(rows: map<string, Row<V>>, ms: seq<Mutation<Ident, V>>, i: nat, jsonValid: V -> bool,
                           fault: Fault)
    requires WellKeyed(rows) && i < |ms| && Clear(rows, ms, i, jsonValid, fault)
    requires JudgeOrFail(rows, ms[i], SeenBefore(ms, i), fault == FindFails(i), jsonValid).Some?
    ensures FirstObstacle(Contents(rows), ms, 0, jsonValid, fault) ==
            JudgeOrFail(rows, ms[i], SeenBefore(ms, i), fault == FindFails(i), jsonValid)
  {
    ClearSoFar(rows, ms, i, jsonValid, fault);
    ObstacleIsJudged(rows, ms, i, jsonValid, fault);
  }

  /** What the first loop notes about a mutation: whether its record exists, and the version after it. */
  function PlanFor<V>(rows: map<string, Row<V>>, m: Mutation<Ident, V>): PendingMutation<V> {
    Pending(m, IdOf(m.key) in rows, RowVersion(rows, m.key) + 1)
  }

  /** The first i mutations have been planned. */
  ghost predicate Planned<V>(rows: map<string, Row<V>>, ms: seq<Mutation<Ident, V>>, plans: seq<PendingMutation<V>>,
                             i: nat)
    requires i <= |ms| == |plans|
  {
    i == 0 || (Planned(rows, ms, plans, i - 1) && plans[i - 1] == PlanFor(rows, ms[i - 1]))
  }

  lemma {:induction false} PlannedAt<V>(rows: map<string, Row<V>>, ms: seq<Mutation<Ident, V>>,
                                        plans: seq<PendingMutation<V>>, i: nat)
    requires i <= |ms| == |plans| && Planned(rows, ms, plans, i)
    ensures forall j :: 0 <= j < i ==> plans[j] == PlanFor(rows, ms[j])
  {
    if i > 0 {
      PlannedAt(rows, ms, plans, i - 1);
    }
  }

  lemma {:induction false} StillPlanned<V>(rows: map<string, Row<V>>, ms: seq<Mutation<Ident, V>>,
                                           plans: seq<PendingMutation<V>>, more: seq<PendingMutation<V>>, i: nat)
    requires i <= |ms| == |plans| == |more| && plans[..i] == more[..i] && Planned(rows, ms, plans, i)
    ensures Planned(rows, ms, more, i)
  {
    if i > 0 {
      assert plans[..i - 1] == plans[..i][..i - 1] && more[..i - 1] == more[..i][..i - 1];
      assert plans[i - 1] == plans[..i][i - 1] && more[i - 1] == more[..i][i - 1];
      StillPlanned(rows, ms, plans, more, i - 1);
    }
  }

  lemma PlanNext<V>(rows: map<string, Row<V>>, ms: seq<Mutation<Ident, V>>, plans: seq<PendingMutation<V>>, i: nat,
                    more: seq<PendingMutation<V>>)
    requires i < |ms| == |plans| && Planned(rows, ms, plans, i) && more == plans[i := PlanFor(rows, ms[i])]
    ensures Planned(rows, ms, more, i + 1)
  {
    StillPlanned(rows, ms, plans, more, i);
  }

  /** The table after one planned mutation is written. */
  function Next<V>(tx: map<string, Row<V>>, item: PendingMutation<V>): map<string, Row<V>> {
    var m := item.mutation;
    if m.op.Delete? then tx - {IdOf(m.key)} else tx[IdOf(m.key) := Row(m.key.collection, m.key.key, m.value, item.next)]
  }

  lemma WritePlanned<V>(rows: map<string, Row<V>>, ms: seq<Mutation<Ident, V>>, i: nat, tx: map<string, Row<V>>,
                        after: map<string, Row<V>>)
    requires 0 < i <= |ms| && Distinct(ms) && ms[i - 1].op != Unknown && Written(rows, ms[..i - 1], tx)
    requires after == Next(tx, PlanFor(rows, ms[i - 1]))
    ensures Written(rows, ms[..i], after)
  {
    WriteNext(rows, ms[..i - 1], ms[i - 1], tx, after);
    assert ms[..i] == ms[..i - 1] + [ms[i - 1]];
  }

  /** The table after the first i mutations are written one by one. */
  ghost function WrittenUpTo<V>(rows: map<string, Row<V>>, ms: seq<Mutation<Ident, V>>, i: nat): map<string, Row<V>>
    requires i <= |ms|
  {
    if i == 0 then rows else Next(WrittenUpTo(rows, ms, i - 1), PlanFor(rows, ms[i - 1]))
  }

  lemma {:induction false} OneByOne<V>(rows: map<string, Row<V>>, ms: seq<Mutation<Ident, V>>, i: nat)
    requires i <= |ms| && Distinct(ms) && forall j :: 0 <= j < |ms| ==> ms[j].op != Unknown
    ensures Written(rows, ms[..i], WrittenUpTo(rows, ms, i))
  {
    if i == 0 {
      assert ms[..0] == [];
      NothingWritten(rows);
    } else {
      OneByOne(rows, ms, i - 1);
      WritePlanned(rows, ms, i, WrittenUpTo(rows, ms, i - 1), WrittenUpTo(rows, ms, i));
    }
  }

  lemma NothingWritten<V>(rows: map<string, Row<V>>)
    ensures Written(rows, [], rows)
  {
    assert Targets<V>([]) == {};
  }

  lemma OnePut<V(!new)>(rows: map<string, Row<V>>, m: Mutation<Ident, V>, jsonValid: V -> bool)
    requires WellKeyed(rows) && m.op.Put?
    ensures Accepted(Contents(rows), [m], jsonValid)
            <==> m.key.collection != "" && m.key.key != "" && jsonValid(m.value) && Meets(Contents(rows), m)
    ensures PutRows(rows, [m]) == [Row(m.key.collection, m.key.key, m.value, VersionOf(Contents(rows), m.key) + 1)]
  {
    Lookup(rows, m.key);
    SinglePut(Contents(rows), m, Contents(rows));
    assert [m][0] == m;
    PutRowsOfOne(rows, m);
  }

  /** The answer to one mutation, by the records named before it and the rows on record. */
  ghost predicate AnswersOne<V(!new)>(rows: map<string, Row<V>>, mutation: Mutation<Ident, V>, seen: set<string>,
                                      findFails: bool, jsonValid: V -> bool, error: Option<ErrorCode>)
  {
    var id := RecordID(mutation.key.collection, mutation.key.key);
    var proper := !Malformed(mutation, jsonValid) && id !in seen;
    && (error == Some(Invalid) <==> !proper)
    && (error == Some(Internal) <==> proper && findFails)
    && (error == Some(NotFound) <==> proper && !findFails && mutation.op.Delete? && id !in rows)
    && (error == Some(Conflict) <==>
          proper && !findFails && (mutation.op.Delete? ==> id in rows)
          && IsMissed(mutation.expected, id in rows, if id in rows then rows[id].version else 0))
  }

  lemma NothingStored<V(!new)>()
    ensures WellKeyed<V>(map[]) && Contents<V>(map[]) == map[]
  {}

  class BarqStore<V(==,!new)> {
    const jsonValid: V -> bool
    var rows: map<string, Row<V>>

    ghost predicate Valid()
      reads this
    {
      WellKeyed(rows)
    }

    ghost function View(): map<Ident, Versioned<V>>
      reads this
      requires Valid()
    {
      Contents(rows)
    }

    constructor (jsonValid: V -> bool)
      ensures Valid() && View() == map[] && this.jsonValid == jsonValid
    {
      NothingStored<V>();
      this.jsonValid := jsonValid;
      rows := map[];
    }

    /** One round of the first loop: every check of one mutation, in order. */
    method CheckOne(mutation: Mutation<Ident, V>, seen: set<string>, findFails: bool)
      returns (error: Option<ErrorCode>, item: PendingMutation<V>)
      ensures error == JudgeOrFail(rows, mutation, seen, findFails, jsonValid)
      ensures AnswersOne(rows, mutation, seen, findFails, jsonValid, error)
      ensures error.None? ==> item == PlanFor(rows, mutation)
    {
      item := Pending(mutation, false, 0);
      if mutation.key.collection == "" || mutation.key.key == "" {
        return Some(Invalid), item;
      }
      if mutation.op != Put && mutation.op != Delete {
        return Some(Invalid), item;
      }
      if mutation.op == Put && !jsonValid(mutation.value) {
        return Some(Invalid), item;
      }
      var id := RecordID(mutation.key.collection, mutation.key.key);
      if id in seen {
        return Some(Invalid), item;
      }
      if findFails {
        return Some(Internal), item;
      }
      var found := id in rows;
      var current := if found then rows[id].version else 0;
      item := Pending(mutation, found, current + 1);
      if mutation.op == Delete && !found {
        return Some(NotFound), item;
      }
      if mutation.expected.Some? &&
         ((mutation.expected.value == 0 && found) ||
          (mutation.expected.value != 0 && (!found || current != mutation.expected.value))) {
        return Some(Conflict), item;
      }
      error := None;
    }

    /** The first loop: judge every mutation against the rows as they are now. */
    method Check(mutations: seq<Mutation<Ident, V>>, fault: Fault)
      returns (error: Option<ErrorCode>, pending: array<PendingMutation<V>>)
      requires Valid() && 1 <= |mutations| <= MAX_MUTATIONS
      ensures fresh(pending) && pending.Length == |mutations|
      ensures error == FirstObstacle(View(), mutations, 0, jsonValid, fault)
      ensures error.None? ==> forall j :: 0 <= j < |mutations| ==> pending[j] == PlanFor(rows, mutations[j])
    {
      pending :=
        new PendingMutation<V>[|mutations|](i requires 0 <= i < |mutations| => Pending(mutations[i], false, 0));
      var seen: set<string> := {};
      var i := 0;
      while i < |mutations|
        modifies pending
        invariant 0 <= i <= |mutations|
        invariant seen == SeenBefore(mutations, i) && Clear(rows, mutations, i, jsonValid, fault)
        invariant Planned(rows, mutations, pending[..], i)
      {
        var item;
        error, item := CheckOne(mutations[i], seen, fault == FindFails(i));
        if error.Some? {
          StopsAtObstacle(rows, mutations, i, jsonValid, fault);
          return;
        }
        seen := seen + {IdOf(mutations[i].key)};
        ghost var before := pending[..];
        pending[i] := item;
        assert pending[..] == before[i := item];
        PlanNext(rows, mutations, before, i, pending[..]);
        i := i + 1;
      }
      PlannedAt(rows, mutations, pending[..], i);
      ClearSoFar(rows, mutations, i, jsonValid, fault);
      error := None;
    }

    /** One round of the second loop. */
    static method WriteOne(item: PendingMutation<V>, tx: map<string, Row<V>>) returns (after: map<string, Row<V>>)
      ensures after == Next(tx, item)
    {
      var id := RecordID(item.mutation.key.collection, item.mutation.key.key);
      if item.mutation.op == Delete {
        after := tx - {id};
      } else {
        after := tx[id := Row(item.mutation.key.collection, item.mutation.key.key, item.mutation.value, item.next)];
      }
    }

    /** The second loop: write inside one native transaction, which is dropped if a write fails. */
    method Write(mutations: seq<Mutation<Ident, V>>, pending: array<PendingMutation<V>>, fault: Fault)
      returns (done: bool, tx: map<string, Row<V>>)
      requires pending.Length == |mutations| && Distinct(mutations)
      requires forall j :: 0 <= j < |mutations| ==> mutations[j].op != Unknown
      requires forall j :: 0 <= j < |mutations| ==> pending[j] == PlanFor(rows, mutations[j])
      ensures done ==> Written(rows, mutations, tx)
      ensures done <==> !(fault.WriteFails? && fault.at < |mutations|)
    {
      tx := rows;
      var i := 0;
      while i < pending.Length
        invariant 0 <= i <= pending.Length
        invariant tx == WrittenUpTo(rows, mutations, i)
        invariant fault.WriteFails? ==> i <= fault.at
      {
        if fault == WriteFails(i) {
          return false, tx;
        }
        tx := WriteOne(pending[i], tx);
        i := i + 1;
      }
      assert mutations[..i] == mutations;
      OneByOne(rows, mutations, i);
      done := true;
    }

    /** The third loop: report the records that were put. */
    method Report(mutations: seq<Mutation<Ident, V>>, pending: array<PendingMutation<V>>) returns (records: seq<Row<V>>)
      requires pending.Length == |mutations|
      requires forall j :: 0 <= j < |mutations| ==> pending[j] == PlanFor(rows, mutations[j])
      ensures records == PutRows(rows, mutations)
    {
      records := [];
      var i := 0;
      while i < pending.Length
        invariant 0 <= i <= pending.Length
        invariant records == PutRows(rows, mutations[..i])
      {
        var item := pending[i];
        assert mutations[..i + 1][..i] == mutations[..i];
        if item.mutation.op == Put {
          records :=
            records + [Row(item.mutation.key.collection, item.mutation.key.key, item.mutation.value, item.next)];
        }
        i := i + 1;
      }
      assert mutations[..i] == mutations;
    }

    /** All or nothing, with every condition checked against the starting state. */
    method Apply(mutations: seq<Mutation<Ident, V>>, fault: Fault) returns (r: Result<seq<Row<V>>>)
      requires Valid()
      modifies this
      ensures Valid()
      ensures r.Ok? ==> Accepted(old(View()), mutations, jsonValid) && AtomicUpdate(old(View()), mutations, View())
                        && r.value == PutRows(old(rows), mutations)
      ensures r.Err? ==> rows == old(rows)
      ensures Refusal(old(View()), mutations, jsonValid, fault) == if r.Ok? then None else Some(r.code)
      ensures Answers(old(View()), mutations, jsonValid, fault, if r.Ok? then None else Some(r.code))
      ensures fault.NoFault? ==> (r.Ok? <==> Accepted(old(View()), mutations, jsonValid))
    {
      RefusalAnswers(View(), mutations, jsonValid, fault);
      RefusalFollowsVerdict(View(), mutations, jsonValid, fault);
      VerdictIsAcceptance(View(), mutations, jsonValid);
      if |mutations| == 0 || |mutations| > MAX_MUTATIONS {
        return Err(Invalid);
      }
      if fault.Cancelled? {
        return Err(Internal);
      }
      var error, pending := Check(mutations, fault);
      if error.Some? {
        return Err(error.value);
      }
      ObstaclesAreComplaints(View(), mutations, 0, jsonValid, fault);
      var done, tx := Write(mutations, pending, fault);
      if !done {
        return Err(Internal);
      }
      WrittenKeepsKeys(rows, mutations, tx);
      WrittenIsUpdate(rows, mutations, tx);
      var records := Report(mutations, pending);
      rows := tx;
      r := Ok(records);
    }

    /** Put and Delete are transactions of one mutation. */
    method PutOne(collection: string, key: string, value: V, expected: Option<nat>, fault: Fault)
      returns (r: Result<Row<V>>)
      requires Valid()
      modifies this
      ensures Valid()
      ensures var k, version := Ident(collection, key), VersionOf(old(View()), Ident(collection, key)) + 1;
              r.Ok? ==>
                View() == old(View())[k := Versioned(value, version)] && r.value == Row(collection, key, value, version)
      ensures r.Err? ==> rows == old(rows)
      ensures var m := Mutation(Put, Ident(collection, key), value, expected);
              && Answers(old(View()), [m], jsonValid, fault, if r.Ok? then None else Some(r.code))
              && (fault.NoFault? && r.Ok? ==> collection != "" && key != "" && jsonValid(value)
                                              && Meets(old(View()), m))
      ensures fault.NoFault? ==>
        match r
        case Ok(_) => !Misses(old(View()), Mutation(Put, Ident(collection, key), value, expected))
        case Err(code) => code == if collection == "" || key == "" || !jsonValid(value) then Invalid else Conflict
    {
      var m := Mutation(Put, Ident(collection, key), value, expected);
      ghost var before := View();
      OnePut(rows, m, jsonValid);
      var records := Apply([m], fault);
      if fault.NoFault? {
        OneAnswer(before, m, jsonValid, if records.Ok? then None else Some(records.code));
      }
      if records.Err? {
        return Err(records.code);
      }
      SinglePut(before, m, View());
      return Ok(records.value[0]);
    }

    method DeleteOne(collection: string, key: string, nothing: V, expected: Option<nat>, fault: Fault)
      returns (error: Option<ErrorCode>)
      requires Valid()
      modifies this
      ensures Valid()
      ensures error.None? ==> View() == old(View()) - {Ident(collection, key)}
      ensures error.Some? ==> rows == old(rows)
      ensures var m := Mutation(Delete, Ident(collection, key), nothing, expected);
              && Answers(old(View()), [m], jsonValid, fault, error)
              && (fault.NoFault? ==> (error.None? <==> collection != "" && key != "" && Meets(old(View()), m)))
      ensures fault.NoFault? ==>
        var k := Ident(collection, key);
        error == if collection == "" || key == "" then Some(Invalid) else if k !in old(View()) then Some(NotFound)
                 else if expected.Some? && (expected.value == 0 || expected.value != old(View())[k].version)
                   then Some(Conflict) else None
    {
      var m := Mutation(Delete, Ident(collection, key), nothing, expected);
      ghost var before := View();
      SingleDelete(before, m, before);
      assert [m][0] == m;
      var records := Apply([m], fault);
      if fault.NoFault? {
        OneAnswer(before, m, jsonValid, if records.Ok? then None else Some(records.code));
      }
      if records.Err? {
        return Some(records.code);
      }
      SingleDelete(before, m, View());
      error := None;
    }

    /** A record is found under exactly the collection and key it was written with. */
    method Get(collection: string, key: string, fault: Fault) returns (r: Result<Row<V>>)
      requires Valid()
      ensures collection == "" || key == "" ==> r == Err(Invalid)
      ensures collection != "" && key != "" ==> (r == Err(Internal) <==> fault.Cancelled? || fault == FindFails(0))
      ensures collection != "" && key != "" && r != Err(Internal) && Ident(collection, key) !in View() ==>
        r == Err(NotFound)
      ensures collection != "" && key != "" && r != Err(Internal) && Ident(collection, key) in View() ==>
        r == Ok(Row(collection, key, View()[Ident(collection, key)].value, View()[Ident(collection, key)].version))
    {
      if collection == "" || key == "" {
        return Err(Invalid);
      }
      if fault.Cancelled? || fault == FindFails(0) {
        return Err(Internal);
      }
      var id := RecordID(collection, key);
      Lookup(rows, Ident(collection, key));
      if id !in rows {
        return Err(NotFound);
      }
      IdInjective(Ident(collection, key), Ident(rows[id].collection, rows[id].key));
      return Ok(rows[id]);
    }

    /** The records of a collection whose keys have the prefix. The walk takes one lookup to begin
        and one for each row, and stops at the first that fails. */
    method Select(collection: string, prefix: string, fault: Fault) returns (done: bool, byKey: map<string, Row<V>>)
      ensures done ==> IsSelection(rows, byKey, rows.Keys, collection, prefix)
      ensures done <==> !(fault.FindFails? && fault.at <= |rows|)
    {
      byKey := map[];
      var left, looked := rows.Keys, 0;
      assert |rows.Keys| == |rows|;
      if fault == FindFails(looked) {
        return false, byKey;
      }
      while left != {}
        invariant left <= rows.Keys && looked + |left| == |rows|
        invariant fault.FindFails? ==> looked < fault.at
        invariant IsSelection(rows, byKey, rows.Keys - left, collection, prefix)
        decreases |left|
      {
        looked := looked + 1;
        if fault == FindFails(looked) {
          return false, byKey;
        }
        var id :| id in left;
        left := left - {id};
        var row := rows[id];
        if row.collection == collection && HasPrefix(row.key, prefix) {
          byKey := byKey[row.key := row];
        }
      }
      done := true;
    }

    /** The records of a collection whose keys start with a prefix: all of them, no others,
        in strictly ascending key order, whatever order the database walks its rows in. */
    method List(collection: string, prefix: string, fault: Fault) returns (r: Result<seq<Row<V>>>)
      requires Valid()
      ensures collection == "" ==> r == Err(Invalid)
      ensures collection != "" ==>
        if fault.Cancelled? || (fault.FindFails? && fault.at <= |rows|) then r == Err(Internal)
        else r.Ok? && Ascending(r.value)
      ensures r.Ok? ==> forall i :: 0 <= i < |r.value| ==>
        r.value[i].collection == collection && HasPrefix(r.value[i].key, prefix)
        && Ident(collection, r.value[i].key) in View()
        && View()[Ident(collection, r.value[i].key)] == Versioned(r.value[i].value, r.value[i].version)
      ensures r.Ok? ==> forall k :: k in View() && k.collection == collection && HasPrefix(k.key, prefix) ==>
        exists i :: 0 <= i < |r.value| && r.value[i].key == k.key
    {
      if collection == "" {
        return Err(Invalid);
      }
      if fault.Cancelled? {
        return Err(Internal);
      }
      var done, byKey := Select(collection, prefix, fault);
      if !done {
        return Err(Internal);
      }
      var records;
      ghost var keys;
      records, keys := Sorting.SortByKey(byKey);
      SelectionIsListed(rows, byKey, collection, prefix, keys, records);
      return Ok(records);
    }
  }

  /** byKey holds the given rows that belong to the collection and whose keys have the prefix. */
  ghost predicate IsSelection<V>(rows: map<string, Row<V>>, byKey: map<string, Row<V>>, ids: set<string>,
                                 collection: string, prefix: string) {
    && (forall key :: key in byKey ==> IsSelected(rows, byKey[key], key, collection, prefix))
    && (forall id :: id in rows && id in ids && rows[id].collection == collection && HasPrefix(rows[id].key, prefix) ==>
          rows[id].key in byKey)
  }

  ghost predicate IsSelected<V>(rows: map<string, Row<V>>, row: Row<V>, key: string, collection: string,
                                prefix: string) {
    && row.key == key && row.collection == collection && HasPrefix(key, prefix)
    && (exists id :: id in rows && rows[id] == row)
  }

  /** The selection, sorted, shows exactly the matching records of the table. */
  lemma SelectionIsListed<V>(rows: map<string, Row<V>>, byKey: map<string, Row<V>>, collection: string, prefix: string,
                             keys: seq<string>, records: seq<Row<V>>)
    requires WellKeyed(rows) && IsSelection(rows, byKey, rows.Keys, collection, prefix)
    requires Sorting.IsSorted(keys, byKey.Keys) && |records| == |keys|
    requires forall i :: 0 <= i < |keys| ==> keys[i] in byKey && records[i] == byKey[keys[i]]
    ensures forall i :: 0 <= i < |records| ==>
      records[i].collection == collection && HasPrefix(records[i].key, prefix)
      && Ident(collection, records[i].key) in Contents(rows)
      && Contents(rows)[Ident(collection, records[i].key)] == Versioned(records[i].value, records[i].version)
    ensures forall k :: k in Contents(rows) && k.collection == collection && HasPrefix(k.key, prefix) ==>
      exists i :: 0 <= i < |records| && records[i].key == k.key
  {
    forall i | 0 <= i < |records|
      ensures Ident(collection, records[i].key) in Contents(rows)
      ensures Contents(rows)[Ident(collection, records[i].key)] == Versioned(records[i].value, records[i].version)
    {
      assert IsSelected(rows, byKey[keys[i]], keys[i], collection, prefix);
      Lookup(rows, Ident(collection, records[i].key));
    }
    forall k | k in Contents(rows) && k.collection == collection && HasPrefix(k.key, prefix)
      ensures exists i :: 0 <= i < |records| && records[i].key == k.key
    {
      Lookup(rows, k);
      IdInjective(k, Ident(rows[IdOf(k)].collection, rows[IdOf(k)].key));
      var i :| 0 <= i < |keys| && keys[i] == k.key;
      assert IsSelected(rows, byKey[keys[i]], keys[i], collection, prefix);
      assert records[i].key == k.key;
    }
  }

  lemma SeenMeansDuplicate<V>(ms: seq<Mutation<Ident, V>>, i: nat)
    requires i < |ms|
    ensures Repeats(ms, i) <==> IdOf(ms[i].key) in Targets(ms[..i])
    ensures Targets(ms[..i + 1]) == Targets(ms[..i]) + {IdOf(ms[i].key)}
  {
    var before, upTo := ms[..i], ms[..i + 1];
    if IdOf(ms[i].key) in Targets(before) {
      var j :| 0 <= j < |before| && IdOf(before[j].key) == IdOf(ms[i].key);
      IdInjective(ms[j].key, ms[i].key);
    }
    if j :| 0 <= j < i && ms[j].key == ms[i].key {
      assert IdOf(before[j].key) in Targets(before);
    }
    forall id | id in Targets(before) ensures id in Targets(upTo) {
      var j :| 0 <= j < |before| && IdOf(before[j].key) == id;
      assert upTo[j] == before[j];
    }
    assert upTo[i] == ms[i];
    forall id | id in Targets(upTo) ensures id in Targets(before) || id == IdOf(ms[i].key) {
      var j :| 0 <= j < |upTo| && IdOf(upTo[j].key) == id;
      if j < i {
        assert before[j] == upTo[j];
      }
    }
  }

  ghost predicate Ascending<V>(records: seq<Row<V>>) {
    forall i, j :: 0 <= i < j < |records| ==> Less(records[i].key, records[j].key)
  }
}
