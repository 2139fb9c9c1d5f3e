/** Releases, the deployment manifest, and the release history it keeps. */
module Releases {
  datatype Release = Release(version: string, controlImage: string, coreImage: string, internalProtocol: int,
                             coreDataFormat: int, controlSchema: int, bundleVersion: int, coreCommit: string,
                             barqGoCommit: string)

  datatype Manifest = Manifest(version: string, domain: string, project: string, url: string, release: Release,
                               previous: seq<Release>, createdAt: string)

  const CURRENT_INTERNAL_PROTOCOL := 1
  const CURRENT_CORE_DATA_FORMAT := 1
  const CURRENT_CONTROL_SCHEMA := 1
  const CURRENT_BUNDLE_VERSION := 2

  /** Fields that an older tool did not write are taken as the first of their kind. */
  function Normalize(r: Release): Release {
    r.(internalProtocol := if r.internalProtocol == 0 then CURRENT_INTERNAL_PROTOCOL else r.internalProtocol,
       coreDataFormat := if r.coreDataFormat == 0 then CURRENT_CORE_DATA_FORMAT else r.coreDataFormat,
       controlSchema := if r.controlSchema == 0 then CURRENT_CONTROL_SCHEMA else r.controlSchema,
       bundleVersion := if r.bundleVersion == 0 then CURRENT_BUNDLE_VERSION else r.bundleVersion)
  }

  function NormalizeAll(releases: seq<Release>): seq<Release> {
    seq(|releases|, i requires 0 <= i < |releases| => Normalize(releases[i]))
  }

  function NormalizeManifest(m: Manifest): Manifest {
    m.(release := Normalize(m.release), previous := NormalizeAll(m.previous))
  }

  predicate IsHex(c: char) { '0' <= c <= '9' || 'a' <= c <= 'f' }

  /** The position of the first occurrence of a marker, or the length of the text. */
  function Find(text: string, marker: string): (k: nat)
    ensures k <= |text|
  {
    if text == "" || marker <= text then 0 else 1 + Find(text[1..], marker)
  }

  const DIGEST := "@sha256:"

  /** The image is pinned by a digest. */
  predicate FixedImage(image: string) {
    var k := Find(image, DIGEST);
    0 < k < |image| && |image| == k + |DIGEST| + 64 && forall i :: k + |DIGEST| <= i < |image| ==> IsHex(image[i])
  }

  predicate Compatible(r: Release) {
    && r.internalProtocol == CURRENT_INTERNAL_PROTOCOL && r.coreDataFormat == CURRENT_CORE_DATA_FORMAT
    && 0 < r.controlSchema <= CURRENT_CONTROL_SCHEMA && r.bundleVersion == CURRENT_BUNDLE_VERSION
  }

  // ---- The same, character by character and number by number ----

  predicate IsAt(text: string, marker: string, i: nat) {
    i + |marker| <= |text| && text[i..i + |marker|] == marker
  }

  /** A name, "@sha256:" for the first time, and 64 lower-case hexadecimal digits. */
  predicate IsPinned(image: string) {
    && |image| > 72 && IsAt(image, "@sha256:", |image| - 72)
    && (forall i :: 0 <= i < |image| - 72 ==> !IsAt(image, "@sha256:", i))
    && (forall i :: |image| - 64 <= i < |image| ==> image[i] in "0123456789abcdef")
  }

  lemma IsAtNext(text: string, marker: string, i: nat)
    requires text != ""
    ensures IsAt(text, marker, i + 1) <==> IsAt(text[1..], marker, i)
  {
    if i + |marker| <= |text[1..]| {
      assert text[1..][i..i + |marker|] == text[i + 1..i + 1 + |marker|];
    }
  }

  lemma {:induction false} FoundFirst(text: string, marker: string)
    requires marker != ""
    ensures var k := Find(text, marker); k < |text| ==> IsAt(text, marker, k)
    ensures forall i: nat :: i < Find(text, marker) ==> !IsAt(text, marker, i)
  {
    if text == "" || marker <= text {
    } else {
      FoundFirst(text[1..], marker);
      IsAtNext(text, marker, Find(text[1..], marker));
      forall i: nat | i < Find(text, marker)
        ensures !IsAt(text, marker, i)
      {
        if i > 0 { IsAtNext(text, marker, i - 1); }
      }
    }
  }

  /** The check on images is exact. */
  lemma FixedMeansPinned(image: string)
    ensures FixedImage(image) <==> IsPinned(image)
  {
    FoundFirst(image, DIGEST);
    HexDigits();
    var k := Find(image, DIGEST);
    assert |DIGEST| == 8 && (k < |image| ==> IsAt(image, "@sha256:", k));
  }

  lemma HexDigits()
    ensures forall c: char :: IsHex(c) <==> c in "0123456789abcdef"
  {
    var digits := "0123456789abcdef";
    forall c: char
      ensures IsHex(c) <==> c in digits
    {
      if '0' <= c <= '9' { assert digits[c as int - '0' as int] == c; }
      if 'a' <= c <= 'f' { assert digits[10 + c as int - 'a' as int] == c; }
    }
  }

  /** What a release says once the numbers it leaves out are filled in. */
  predicate IsFilled(raw: Release, r: Release) {
    && r == raw.(internalProtocol := r.internalProtocol, coreDataFormat := r.coreDataFormat,
                 controlSchema := r.controlSchema, bundleVersion := r.bundleVersion)
    && r.internalProtocol == (if raw.internalProtocol == 0 then 1 else raw.internalProtocol)
    && r.coreDataFormat == (if raw.coreDataFormat == 0 then 1 else raw.coreDataFormat)
    && r.controlSchema == (if raw.controlSchema == 0 then 1 else raw.controlSchema)
    && r.bundleVersion == (if raw.bundleVersion == 0 then 2 else raw.bundleVersion)
  }

  /** The manifest that is read is the one written, with the numbers of its releases filled in. */
  predicate IsRead(raw: Manifest, m: Manifest) {
    && m == raw.(release := m.release, previous := m.previous) && IsFilled(raw.release, m.release)
    && |m.previous| == |raw.previous| && forall i :: 0 <= i < |m.previous| ==> IsFilled(raw.previous[i], m.previous[i])
  }

  /** A release is compatible exactly with protocol 1, data format 1, schema 1 and bundle 2. */
  lemma CompatibleIs(r: Release)
    ensures Compatible(r) <==>
              r.internalProtocol == 1 && r.coreDataFormat == 1 && r.controlSchema == 1 && r.bundleVersion == 2
  {}

  // ---- History ----

  const MAX_PREVIOUS: nat := 10

  function LastTen(releases: seq<Release>): seq<Release> {
    if |releases| > MAX_PREVIOUS then releases[|releases| - MAX_PREVIOUS..] else releases
  }

  /** The manifest after a change of release: what was current becomes the latest previous one. */
  function Changed(m: Manifest, target: Release): Manifest {
    m.(previous := if target != m.release then LastTen(m.previous + [m.release]) else m.previous,
       version := target.version, release := target)
  }

  /** Rolling back takes the latest previous release off the history before it changes to it. */
  function RolledBack(m: Manifest): Manifest
    requires m.previous != []
  {
    Changed(m.(previous := m.previous[..|m.previous| - 1]), m.previous[|m.previous| - 1])
  }

  datatype Change = Upgrade(target: Release) | Rollback

  /** What Upgrade and Rollback themselves demand before they change anything. */
  predicate Permitted(m: Manifest, change: Change) {
    if change.Upgrade? then change.target != m.release else m.previous != []
  }

  function Apply(m: Manifest, change: Change): Manifest
    requires Permitted(m, change)
  {
    if change.Upgrade? then Changed(m, change.target) else RolledBack(m)
  }

  /** The target is current, and what was current is the latest of the kept history, of which ten stay. */
  predicate Moved(before: Manifest, kept: seq<Release>, target: Release, after: Manifest) {
    && after == before.(release := target, version := target.version, previous := after.previous)
    && if target == before.release then after.previous == kept
       else |after.previous| == (if |kept| < 10 then |kept| + 1 else 10)
            && after.previous == (kept + [before.release])[|kept| + 1 - |after.previous|..]
  }

  /** An upgrade moves to its target, a rollback to the latest previous release, which it takes off the history. */
  lemma ChangeMoves(m: Manifest, change: Change)
    requires Permitted(m, change)
    ensures var n := |m.previous|;
            if change.Upgrade? then change.target != m.release && Moved(m, m.previous, change.target, Apply(m, change))
            else n > 0 && Moved(m, m.previous[..n - 1], m.previous[n - 1], Apply(m, change))
  {
    var n := |m.previous|;
    if change.Upgrade? {
      assert m.(previous := m.previous) == m;
      ChangedIsMoved(m, m.previous, change.target);
    } else {
      ChangedIsMoved(m, m.previous[..n - 1], m.previous[n - 1]);
    }
  }

  lemma ChangedIsMoved(m: Manifest, kept: seq<Release>, target: Release)
    ensures Moved(m, kept, target, Changed(m.(previous := kept), target))
  {}

  /** The history is bounded, and the current release is not its latest entry. */
  ghost predicate HistoryOK(m: Manifest) {
    |m.previous| <= 10 && (m.previous != [] ==> m.previous[|m.previous| - 1] != m.release)
  }

  lemma ChangeKeepsHistory(m: Manifest, change: Change)
    requires HistoryOK(m) && Permitted(m, change)
    ensures HistoryOK(Apply(m, change))
  {}

  ghost predicate AllPermitted(m: Manifest, changes: seq<Change>)
    decreases |changes|
  {
    changes == [] || (Permitted(m, changes[0]) && AllPermitted(Apply(m, changes[0]), changes[1..]))
  }

  function ApplyAll(m: Manifest, changes: seq<Change>): Manifest
    requires AllPermitted(m, changes)
    decreases |changes|
  {
    if changes == [] then m else ApplyAll(Apply(m, changes[0]), changes[1..])
  }

  /** From a fresh deployment, however many upgrades and rollbacks later: at most ten previous
      releases, and the latest of them is not the current one. */
  lemma {:induction false} HistoryStaysBounded(m: Manifest, changes: seq<Change>)
    requires HistoryOK(m) && AllPermitted(m, changes)
    ensures HistoryOK(ApplyAll(m, changes))
    decreases |changes|
  {
    if changes != [] {
      ChangeKeepsHistory(m, changes[0]);
      HistoryStaysBounded(Apply(m, changes[0]), changes[1..]);
    }
  }

  /** Two rollbacks in a row bring back the release and the history exactly as they were,
      if and only if the release was not already the latest entry of its own history. */
  lemma TwoRollbacksRestore(m: Manifest)
    requires 1 <= |m.previous| <= 10
    ensures var once := RolledBack(m);
            (once.previous != [] && RolledBack(once).release == m.release && RolledBack(once).previous == m.previous)
            <==> HistoryOK(m)
  {
    var n := |m.previous|;
    var once := RolledBack(m);
    if m.previous[n - 1] != m.release {
      assert once.previous == m.previous[..n - 1] + [m.release];
      assert once.previous[..n - 1] == m.previous[..n - 1];
      assert RolledBack(once).previous == m.previous[..n - 1] + [m.previous[n - 1]] == m.previous;
    } else {
      assert once.previous == m.previous[..n - 1];
      if once.previous != [] {
        assert |RolledBack(once).previous| <= n - 1;
      }
    }
  }
}
