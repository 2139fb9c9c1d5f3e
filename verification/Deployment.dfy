/** Changing the release of a deployment: files, data volume and services, changed one step at
    a time, any step of which may fail, and the undoing of a change that failed. */
module Deployment {
  import opened Results
  import opened Environment
  import opened Releases

  // ---- What a deployment consists of ----

  /** The configuration files: .env, compose.yaml, Caddyfile, deployment.json and the two halves of the signing key. */
  datatype Name = Env | Compose | Caddyfile | ManifestFile | PrivateKey | PublicKey

  const CONFIG: seq<Name> := [Env, Compose, Caddyfile, ManifestFile, PrivateKey, PublicKey]

  type Files = map<Name, string>

  datatype Node = File(content: string) | Directory | Link(target: string)

  /** What an archive lists. */
  type Archive = map<string, Node>

  function NameEnd(path: string): (k: nat)
    ensures k <= |path| && '/' !in path[..k] && (k < |path| ==> path[k] == '/')
  {
    if path == "" || path[0] == '/' then 0 else 1 + NameEnd(path[1..])
  }

  function AfterName(path: string): (rest: string)
    ensures path != "" ==> |rest| < |path|
  {
    if NameEnd(path) < |path| then path[NameEnd(path) + 1..] else ""
  }

  /** From this many directories below the target, following the path leaves the target. */
  predicate ClimbsOut(path: string, depth: nat)
    decreases |path|
  {
    path != ""
    && var name := path[..NameEnd(path)];
       if name == ".." then depth == 0 || ClimbsOut(AfterName(path), depth - 1)
       else ClimbsOut(AfterName(path), if name == "" || name == "." then depth else depth + 1)
  }

  /** Absolute, or out of the target by way of "..". */
  predicate Escapes(path: string) { path != "" && (path[0] == '/' || ClimbsOut(path, 0)) }

  predicate Contained(archive: Archive) { forall path :: path in archive ==> !Escapes(path) }

  /** A data volume: its paths stay below its root. */
  type Volume = v: Archive | Contained(v) witness map[]

  /** No links: the archives that a restore accepts. */
  predicate Plain(archive: Archive) { forall path :: path in archive ==> !archive[path].Link? }

  /** Where a name leads from a directory; above the root there is only the root. */
  function Enter(dir: seq<string>, name: string): seq<string> {
    if name == ".." then (if dir == [] then [] else dir[..|dir| - 1])
    else if name == "" || name == "." then dir
    else dir + [name]
  }

  /** Where a path leads from a directory, name by name. */
  function Resolve(dir: seq<string>, path: string): seq<string>
    decreases |path|
  {
    if path == "" then dir else Resolve(Enter(dir, path[..NameEnd(path)]), AfterName(path))
  }

  /** What the check on paths is for: a path it accepts leads to a place below the directory it is unpacked in. */
  lemma ContainedStays(target: seq<string>, path: string)
    requires !Escapes(path)
    ensures target <= Resolve(target, path)
  {
    if path != "" {
      assert target + [] == target;
      StaysBelow(target, [], path);
    }
  }

  lemma {:induction false} StaysBelow(target: seq<string>, below: seq<string>, path: string)
    requires !ClimbsOut(path, |below|)
    ensures target <= Resolve(target + below, path)
    decreases |path|
  {
    if path != "" {
      var name := path[..NameEnd(path)];
      EnterBelow(target, below, name);
      StaysBelow(target, Enter(below, name), AfterName(path));
    }
  }

  /** And it is exact: a relative path is refused only if there is a directory below which it does not stay. */
  lemma EscapesExactly(path: string)
    ensures Escapes(path) <==>
              path != "" && (path[0] == '/' || exists target :: !(target <= Resolve(target, path)))
  {
    if path != "" && path[0] != '/' {
      if Escapes(path) {
        var mark := seq(|path| + 1, i => 'x');
        assert [mark] + [] == [mark];
        LeavesMark(mark, [], path);
        assert !([mark] <= Resolve([mark], path));
      } else {
        forall target
          ensures target <= Resolve(target, path)
        {
          ContainedStays(target, path);
        }
      }
    }
  }

  lemma {:induction false} LeavesMark(mark: string, below: seq<string>, path: string)
    requires ClimbsOut(path, |below|) && |mark| > |path| && mark !in below
    ensures mark !in Resolve([mark] + below, path)
    decreases |path|
  {
    var name := path[..NameEnd(path)];
    if name == ".." && below == [] {
      assert Enter([mark] + below, name) == [];
      NeverEntered(mark, [], AfterName(path));
    } else {
      EnterBelow([mark], below, name);
      EnterUnmarked(mark, below, name);
      LeavesMark(mark, Enter(below, name), AfterName(path));
    }
  }

  lemma EnterUnmarked(mark: string, dir: seq<string>, name: string)
    requires |mark| > |name| && mark !in dir
    ensures mark !in Enter(dir, name)
  {}

  lemma {:induction false} NeverEntered(mark: string, dir: seq<string>, path: string)
    requires |mark| > |path| && mark !in dir
    ensures mark !in Resolve(dir, path)
    decreases |path|
  {
    if path != "" {
      EnterUnmarked(mark, dir, path[..NameEnd(path)]);
      NeverEntered(mark, Enter(dir, path[..NameEnd(path)]), AfterName(path));
    }
  }

  lemma EnterBelow(target: seq<string>, below: seq<string>, name: string)
    requires name == ".." ==> below != []
    ensures Enter(target + below, name) == target + Enter(below, name)
  {
    if name == ".." {
      assert (target + below)[..|target + below| - 1] == target + below[..|below| - 1];
    } else {
      assert target + below + [name] == target + (below + [name]);
    }
  }

  const BACKUP_FORMAT := 1

  datatype Snapshot = Snapshot(format: int, config: Files, hashes: map<Name, string>, data: Archive, dataHash: string,
                               project: string)

  /** The manifest's encoding, the hashes, and the files this version of the tool brings along. */
  datatype Setting = Setting(encode: Manifest -> string, decode: string -> Option<Manifest>,
                             hash: string -> string, hashData: Archive -> string, compose: string, caddyfile: string)

  ghost predicate Lossless(w: Setting) { forall m :: w.decode(w.encode(m)) == Some(m) }

  /** How a step went. A write that fails may leave anything in its file; a command that runs
      services, or that fails half way, may leave anything in the volume. */
  datatype Outcome = Outcome(ok: bool, touched: bool, left: string, volume: Volume)

  function LoadManifest(w: Setting, files: Files): Option<Manifest> {
    if ManifestFile !in files then None
    else
      var m := w.decode(files[ManifestFile]);
      if m.None? then None else Some(NormalizeManifest(m.value))
  }

  /** The manifest can be read if it is there and well formed; what is read is what it says. */
  lemma LoadedIsWritten(w: Setting, files: Files)
    ensures LoadManifest(w, files).Some? <==> ManifestFile in files && w.decode(files[ManifestFile]).Some?
    ensures LoadManifest(w, files).Some? ==>
              IsRead(w.decode(files[ManifestFile]).value, LoadManifest(w, files).value)
  {}

  /** Every configuration file is there. */
  predicate Complete(files: Files) { forall n: Name :: n in files }

  /** The backup has the known format and is what its metadata says: data and every configuration file have
      the recorded hash, no path leads out of the volume, and there are no links. */
  predicate Verified(w: Setting, s: Snapshot) {
    && s.format == 1 && w.hashData(s.data) == s.dataHash && Contained(s.data) && Plain(s.data)
    && |s.hashes| == 6
    && (forall n: Name :: n in s.hashes && n in s.config && w.hash(s.config[n]) == s.hashes[n])
  }

  /** The snapshot that a backup of these files and this volume makes. */
  function SnapshotOf(w: Setting, files: Files, data: Volume, project: string): Snapshot {
    Snapshot(BACKUP_FORMAT, files, map n | n in files :: w.hash(files[n]), data, w.hashData(data), project)
  }

  /** Every configuration file is listed. */
  function Position(n: Name): (j: nat)
    ensures j < |CONFIG| && CONFIG[j] == n
  {
    match n
    case Env => 0
    case Compose => 1
    case Caddyfile => 2
    case ManifestFile => 3
    case PrivateKey => 4
    case PublicKey => 5
  }

  lemma AllNames()
    ensures forall n: Name :: n in CONFIG
    ensures |(set n: Name | n in CONFIG)| == |CONFIG|
  {
    assert CONFIG[0] == Env && CONFIG[1] == Compose && CONFIG[2] == Caddyfile;
    assert CONFIG[3] == ManifestFile && CONFIG[4] == PrivateKey && CONFIG[5] == PublicKey;
    forall n: Name
      ensures n in CONFIG
    {
      assert CONFIG[Position(n)] == n;
    }
    assert (set n: Name | n in CONFIG) == {Env, Compose, Caddyfile, ManifestFile, PrivateKey, PublicKey};
  }

  /** A backup of a complete configuration passes its own verification exactly when the volume holds no links. */
  lemma BackupVerifies(w: Setting, files: Files, data: Volume, project: string)
    requires Complete(files)
    ensures Verified(w, SnapshotOf(w, files, data, project)) <==> Plain(data)
  {
    AllNames();
    var hashes := SnapshotOf(w, files, data, project).hashes;
    assert hashes.Keys == (set n: Name | n in CONFIG);
    assert |hashes| == |hashes.Keys|;
  }

  // ---- Environment and manifest agree ----

  const CONTROL_IMAGE := "BARQ_CONTROL_IMAGE"
  const CORE_IMAGE := "BARQ_CORE_IMAGE"
  const API_KEY := "BARQ_API_KEY"

  function Images(r: Release): Replacements { map[CONTROL_IMAGE := r.controlImage, CORE_IMAGE := r.coreImage] }

  /** The environment sets both images, to those of the manifest's release. */
  ghost predicate Agree(w: Setting, files: Files) {
    && Env in files && LoadManifest(w, files).Some?
    && Says(LinesOf(files[Env]), "BARQ_CONTROL_IMAGE", LoadManifest(w, files).value.release.controlImage)
    && Says(LinesOf(files[Env]), "BARQ_CORE_IMAGE", LoadManifest(w, files).value.release.coreImage)
  }

  lemma NamesAreKeys()
    ensures CONTROL_IMAGE != CORE_IMAGE && API_KEY != CONTROL_IMAGE && API_KEY != CORE_IMAGE
    ensures OneLine(API_KEY) && '=' !in API_KEY
  {
    assert CONTROL_IMAGE[6] == 'O' && CORE_IMAGE[6] == 'O' && CONTROL_IMAGE[7] == 'N' && CORE_IMAGE[7] == 'R';
    assert API_KEY[5] == 'A' && CONTROL_IMAGE[5] == 'C' && CORE_IMAGE[5] == 'C';
  }

  /** Files after a completed change of release. */
  function ChangedFiles(w: Setting, files: Files, m: Manifest, environment: string): Files {
    files[Env := environment][ManifestFile := w.encode(m)][Compose := w.compose][Caddyfile := w.caddyfile]
  }

  /** Rewriting a file that sets both images already appends nothing, and sets them to the new ones. */
  lemma ImagesSet(data: string, r: Release, added: seq<string>)
    requires Present(LinesOf(data), CONTROL_IMAGE) && Present(LinesOf(data), CORE_IMAGE)
    requires !Refused(LinesOf(data), Images(r)) && IsMissing(added, LinesOf(data), Images(r))
    ensures added == []
    ensures Says(LinesOf(NewFile(data, Images(r), added)), "BARQ_CONTROL_IMAGE", r.controlImage)
    ensures Says(LinesOf(NewFile(data, Images(r), added)), "BARQ_CORE_IMAGE", r.coreImage)
  {
    NamesAreKeys();
    assert Images(r).Keys == {CONTROL_IMAGE, CORE_IMAGE};
    SomeKey(added);
    ReplacementHolds(data, Images(r), added);
    assert Images(r)[CONTROL_IMAGE] == r.controlImage && Images(r)[CORE_IMAGE] == r.coreImage;
  }

  /** The checks on a release let a line feed pass in front of the digest, and the checks on the
      environment look only at keys it finds: an image like this is appended, but never set. */
  lemma UncheckedImage(data: string, core: string)
    requires !Present(LinesOf(data), CONTROL_IMAGE) && !HasBreak(core)
    ensures FixedImage(TORN_IMAGE)
    ensures var images := map[CONTROL_IMAGE := TORN_IMAGE, CORE_IMAGE := core];
            !Refused(LinesOf(data), images)
            && forall added :: IsMissing(added, LinesOf(data), images) ==>
                 !Says(LinesOf(NewFile(data, images, added)), CONTROL_IMAGE, TORN_IMAGE)
  {
    TornImageIsFixed();
    NamesAreKeys();
    var images := map[CONTROL_IMAGE := TORN_IMAGE, CORE_IMAGE := core];
    assert TORN_IMAGE[4] == '\n';
    forall added | IsMissing(added, LinesOf(data), images)
      ensures !Says(LinesOf(NewFile(data, images, added)), CONTROL_IMAGE, TORN_IMAGE)
    {
      if Says(LinesOf(NewFile(data, images, added)), CONTROL_IMAGE, TORN_IMAGE) {
        SaidIsClean(TrimLineFeed(NewFile(data, images, added)), CONTROL_IMAGE, TORN_IMAGE);
      }
    }
  }

  const ZEROES: string := seq(64, i => '0')
  const TORN_IMAGE: string := "barq\n" + DIGEST + ZEROES

  lemma {:induction false} DigestFound(name: string, rest: string)
    requires '@' !in name
    ensures Find(name + DIGEST + rest, DIGEST) == |name|
  {
    var text := name + DIGEST + rest;
    if name == "" {
      assert DIGEST <= text;
    } else {
      assert text[0] == name[0] && DIGEST[0] == '@';
      assert text[1..] == name[1..] + DIGEST + rest;
      DigestFound(name[1..], rest);
    }
  }

  lemma TornImageIsFixed()
    ensures FixedImage(TORN_IMAGE)
  {
    DigestFound("barq\n", ZEROES);
    assert |"barq\n"| == 5 && |DIGEST| == 8 && |TORN_IMAGE| == 77;
    assert forall i :: 13 <= i < 77 ==> TORN_IMAGE[i] == ZEROES[i - 13];
  }

  /** The manifest that a change writes is the one read next. */
  lemma LoadedAgain(w: Setting, files: Files, m: Manifest, environment: string)
    requires Lossless(w)
    ensures LoadManifest(w, ChangedFiles(w, files, m, environment)) == Some(NormalizeManifest(m))
  {}

  lemma AgreeAnew(w: Setting, files: Files, m: Manifest)
    requires Env in files && LoadManifest(w, files) == Some(NormalizeManifest(m))
    requires Says(LinesOf(files[Env]), CONTROL_IMAGE, m.release.controlImage)
    requires Says(LinesOf(files[Env]), CORE_IMAGE, m.release.coreImage)
    ensures Agree(w, files)
  {}

  lemma ChangeAgrees(w: Setting, files: Files, m: Manifest, added: seq<string>)
    requires Agree(w, files) && Lossless(w)
    requires !Refused(LinesOf(files[Env]), Images(m.release))
    requires IsMissing(added, LinesOf(files[Env]), Images(m.release))
    ensures Agree(w, ChangedFiles(w, files, m, NewFile(files[Env], Images(m.release), added)))
  {
    var environment := NewFile(files[Env], Images(m.release), added);
    ImagesSet(files[Env], m.release, added);
    LoadedAgain(w, files, m, environment);
    var after := ChangedFiles(w, files, m, environment);
    assert after[Env] == environment;
    AgreeAnew(w, after, m);
  }

  lemma NewKeySaid(data: string, raw: string, added: seq<string>)
    requires OneLine(raw) && !Refused(LinesOf(data), map[API_KEY := raw])
    requires IsMissing(added, LinesOf(data), map[API_KEY := raw])
    ensures Says(LinesOf(NewFile(data, map[API_KEY := raw], added)), "BARQ_API_KEY", raw)
  {
    NamesAreKeys();
    ReplacementHolds(data, map[API_KEY := raw], added);
  }

  lemma NewKeyAgrees(w: Setting, files: Files, raw: string, added: seq<string>)
    requires Agree(w, files) && OneLine(raw)
    requires !Refused(LinesOf(files[Env]), map[API_KEY := raw])
    requires IsMissing(added, LinesOf(files[Env]), map[API_KEY := raw])
    ensures Agree(w, files[Env := NewFile(files[Env], map[API_KEY := raw], added)])
  {
    var m := LoadManifest(w, files).value;
    NamesAreKeys();
    OtherKeysStay(files[Env], map[API_KEY := raw], added, CONTROL_IMAGE, m.release.controlImage);
    OtherKeysStay(files[Env], map[API_KEY := raw], added, CORE_IMAGE, m.release.coreImage);
  }

  // ---- Restoring ----

  /** What a restore demands before it touches anything. */
  predicate Restorable(w: Setting, files: Files, snapshots: map<string, Snapshot>, path: string) {
    && LoadManifest(w, files).Some? && path in snapshots && Verified(w, snapshots[path])
    && snapshots[path].project == LoadManifest(w, files).value.project
  }

  /** What a failed write leaves. */
  function Torn(files: Files, name: Name, o: Outcome): Files {
    if o.touched then files[name := o.left] else files
  }
}
