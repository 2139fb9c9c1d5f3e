/** The maintenance commands, one step at a time: backup, restore, upgrade, rollback, operator key. */
module Maintenance {
  import opened Results
  import opened Environment
  import opened Releases
  import opened Deployment

  /** How far a change of release came. */
  datatype Stage = Preparing | WritingEnvironment | WritingRest | Applying | Complete

  class Host {
    const w: Setting
    const oracle: nat -> Outcome

    var files: Files
    var volume: Volume
    var snapshots: map<string, Snapshot>
    var step: nat

    /** The services are known to be up. */
    var serving: bool

    /** Destinations of backups that were begun and not finished. */
    var begun: set<string>

    /** The volume as the services found it when they were last started. */
    ghost var handed: Volume

    /** Environment and manifest agree, here and in every backup. */
    ghost predicate Consistent()
      reads this
    {
      Agree(w, files) && AllAgree(w, snapshots)
    }

    static ghost predicate AllAgree(w: Setting, snapshots: map<string, Snapshot>) {
      forall p :: p in snapshots ==> Agree(w, snapshots[p].config)
    }

    constructor (w: Setting, oracle: nat -> Outcome, files: Files, volume: Volume, snapshots: map<string, Snapshot>)
      ensures this.w == w && this.oracle == oracle && this.files == files && this.volume == volume
      ensures this.snapshots == snapshots && serving && begun == {}
    {
      this.w, this.oracle, this.files, this.volume, this.snapshots := w, oracle, files, volume, snapshots;
      step, serving, begun, handed := 0, true, {}, volume;
    }

    ghost predicate AllFine(from: nat, to: nat) { forall k :: from <= k < to ==> oracle(k).ok }

    /** One step of the outside world. */
    method Take() returns (o: Outcome)
      modifies `step
      ensures step == old(step) + 1 && o == oracle(old(step))
    {
      o := oracle(step);
      step := step + 1;
    }

    method WriteFile(name: Name, data: string) returns (ok: bool)
      modifies `files, `step
      ensures step == old(step) + 1 && ok == oracle(old(step)).ok
      ensures files == if ok then old(files)[name := data] else Torn(old(files), name, oracle(old(step)))
    {
      var o := Take();
      ok := o.ok;
      if ok {
        files := files[name := data];
      } else if o.touched {
        files := files[name := o.left];
      }
    }

    /** A command that stops or runs services; they may do anything to the volume. */
    method Command() returns (ok: bool)
      modifies `volume, `serving, `step
      ensures step == old(step) + 1 && ok == oracle(old(step)).ok && !serving
    {
      var o := Take();
      volume := o.volume;
      serving := false;
      ok := o.ok;
    }

    /** Start the services on the volume as it is. */
    method Up() returns (ok: bool)
      modifies `volume, `serving, `step, `handed
      ensures step == old(step) + 1 && ok == oracle(old(step)).ok && serving == ok && handed == old(volume)
    {
      handed := volume;
      ok := Command();
      serving := ok;
    }

    // ---- Backup ----

    /** Copy the six configuration files. */
    method CopyConfig() returns (config: Option<Files>)
      modifies `step
      ensures step >= old(step)
      ensures config.Some? <==> Deployment.Complete(files) && AllFine(old(step), old(step) + 6)
      ensures config.Some? ==> config.value == files && step == old(step) + 6
    {
      var copied: Files := map[];
      var i := 0;
      AllNames();
      while i < |CONFIG|
        invariant 0 <= i <= |CONFIG| && step == old(step) + i && AllFine(old(step), step)
        invariant forall n :: n in copied <==> n in CONFIG[..i]
        invariant forall n :: n in copied ==> n in files && copied[n] == files[n]
      {
        var name := CONFIG[i];
        if name !in files { return None; }
        var o := Take();
        if !o.ok {
          assert !oracle(step - 1).ok;
          return None;
        }
        copied := copied[name := files[name]];
        i := i + 1;
      }
      assert CONFIG[..|CONFIG|] == CONFIG;
      config := Some(copied);
    }

    /** The part of a backup for which the services are down: archive, its hash, the metadata. */
    method Archive(path: string, config: Files, project: string) returns (ok: bool)
      requires path !in snapshots
      modifies `snapshots, `step
      ensures step >= old(step)
      ensures (ok <==> AllFine(old(step), old(step) + 4)) && (ok ==> step == old(step) + 4)
      ensures snapshots == if ok then old(snapshots)[path := SnapshotOf(w, config, volume, project)] else old(snapshots)
    {
      var i := 0;
      while i < 4
        modifies `step
        invariant 0 <= i <= 4 && step == old(step) + i && AllFine(old(step), step)
      {
        var o := Take();
        if !o.ok {
          assert !oracle(step - 1).ok;
          return false;
        }
        i := i + 1;
      }
      var hashes := map n | n in config :: w.hash(config[n]);
      snapshots := snapshots[path := Snapshot(BACKUP_FORMAT, config, hashes, volume, w.hashData(volume), project)];
      ok := true;
    }

    /** Earlier backups are as they were, and a new one has this configuration. */
    static ghost predicate OnlyAdded(before: map<string, Snapshot>, after: map<string, Snapshot>, files: Files) {
      && (forall p :: p in before ==> p in after && after[p] == before[p])
      && (forall p :: p in after && p !in before ==> after[p].config == files)
    }

    /** If the services were up and are not any more, then the very last step failed: stopping or restarting them. */
    twostate predicate LeftDown()
      reads this
    {
      old(serving) && !serving ==> step > old(step) && !oracle(step - 1).ok
    }

    /** The services are down from here to the restart, which comes last unless they could not be stopped. */
    method StopAndArchive(path: string, config: Files, project: string) returns (ok: bool)
      requires path !in snapshots && path in begun
      modifies `volume, `serving, `snapshots, `begun, `step, `handed
      ensures step > old(step) && (!serving ==> !oracle(step - 1).ok)
      ensures (ok <==> AllFine(old(step), old(step) + 6)) && (ok ==> step == old(step) + 6)
      ensures ok ==> serving && begun == old(begun) - {path}
      ensures begun == old(begun) || begun == old(begun) - {path}
      ensures ok || snapshots != old(snapshots) ==>
                snapshots == old(snapshots)[path := SnapshotOf(w, config, handed, project)]
    {
      ok := Command();
      if !ok {
        assert !oracle(step - 1).ok;
        return;
      }
      ok := Archive(path, config, project);
      assert ok <==> AllFine(old(step), old(step) + 5);
      if ok {
        begun := begun - {path};
      }
      var restarted := Up();
      assert ok ==> restarted == oracle(old(step) + 5).ok;
      ok := ok && restarted;
    }

    /** What a backup demands: a manifest with a project and a Core image, every configuration file,
        and a destination that nobody has used. */
    static predicate Possible(w: Setting, files: Files, snapshots: map<string, Snapshot>, begun: set<string>,
                              path: string)
    {
      && ManifestFile in files && w.decode(files[ManifestFile]).Some?
      && w.decode(files[ManifestFile]).value.project != ""
      && w.decode(files[ManifestFile]).value.release.coreImage != ""
      && Deployment.Complete(files) && path !in snapshots && path !in begun
    }

    /** A backup succeeds exactly if these demands are met and its twelve steps go well. One that succeeds
        holds the configuration as it is and the volume on which the services were started again; one that
        fails changes neither files nor earlier backups, but may leave its destination behind, half written,
        where no further backup will be made. */
    method Backup(path: string) returns (ok: bool)
      modifies `volume, `serving, `snapshots, `begun, `step, `handed
      ensures step >= old(step)
      ensures ok <==> Possible(w, files, old(snapshots), old(begun), path) && AllFine(old(step), old(step) + 12)
      ensures ok ==> step == old(step) + 12
      ensures ok ==> && path !in old(snapshots) && path !in old(begun) && serving && begun == old(begun)
                     && Deployment.Complete(files) && LoadManifest(w, files).Some?
                     && snapshots ==
                        old(snapshots)[path := SnapshotOf(w, files, handed, LoadManifest(w, files).value.project)]
      ensures OnlyAdded(old(snapshots), snapshots, files)
      ensures LeftDown() && old(begun) <= begun <= old(begun) + {path}
    {
      var m := LoadManifest(w, files);
      if m.None? || m.value.project == "" || m.value.release.coreImage == "" { return false; }
      if path in snapshots || path in begun { return false; }
      begun := begun + {path};
      var config := CopyConfig();
      if config.None? { return false; }
      ok := StopAndArchive(path, config.value, m.value.project);
      assert ok <==> AllFine(old(step), old(step) + 12);
    }

    // ---- Restore ----

    method CheckArchive(data: Archive) returns (ok: bool)
      ensures ok <==> Contained(data) && Plain(data)
    {
      var left := data.Keys;
      while left != {}
        invariant left <= data.Keys
        invariant forall path :: path in data && path !in left ==> !Escapes(path) && !data[path].Link?
        decreases |left|
      {
        var path :| path in left;
        if Escapes(path) { return false; }
        if data[path].Link? { return false; }
        left := left - {path};
      }
      ok := true;
    }

    method VerifyBackup(s: Snapshot) returns (ok: bool)
      ensures ok <==> Verified(w, s)
    {
      if s.format != BACKUP_FORMAT || w.hashData(s.data) != s.dataHash { return false; }
      var plain := CheckArchive(s.data);
      if !plain || |s.hashes| != |CONFIG| { return false; }
      AllNames();
      var i := 0;
      while i < |CONFIG|
        invariant 0 <= i <= |CONFIG|
        invariant forall j :: 0 <= j < i ==>
                    CONFIG[j] in s.hashes && CONFIG[j] in s.config && w.hash(s.config[CONFIG[j]]) == s.hashes[CONFIG[j]]
      {
        var name := CONFIG[i];
        if name !in s.hashes || name !in s.config || w.hash(s.config[name]) != s.hashes[name] {
          assert !Verified(w, s);
          return false;
        }
        i := i + 1;
      }
      forall n: Name
        ensures n in s.hashes && n in s.config && w.hash(s.config[n]) == s.hashes[n]
      {
        assert CONFIG[Position(n)] == n;
      }
      ok := true;
    }

    /** Empty the volume and unpack the archive into it. */
    method Unpack(data: Volume) returns (ok: bool)
      modifies `volume, `step
      ensures step == old(step) + 1 && ok == oracle(old(step)).ok && (ok ==> volume == data)
    {
      var o := Take();
      volume := if o.ok then data else o.volume;
      ok := o.ok;
    }

    method WriteConfig(config: Files) returns (ok: bool)
      requires Deployment.Complete(config)
      modifies `files, `step
      ensures step >= old(step) && (ok <==> AllFine(old(step), step))
      ensures ok ==> files == config
    {
      var i := 0;
      while i < |CONFIG|
        invariant 0 <= i <= |CONFIG| && step == old(step) + i && AllFine(old(step), step)
        invariant forall j :: 0 <= j < i ==> CONFIG[j] in files && files[CONFIG[j]] == config[CONFIG[j]]
      {
        ghost var before := files;
        ok := WriteFile(CONFIG[i], config[CONFIG[i]]);
        if !ok {
          assert !oracle(step - 1).ok;
          return;
        }
        i := i + 1;
      }
      AllNames();
      forall n: Name
        ensures n in files && files[n] == config[n]
      {
        assert CONFIG[Position(n)] == n;
      }
      ok := true;
    }

    /** What a restore does once it has verified the backup: down, unpack, copy, and up in any case. */
    method Reinstall(s: Snapshot) returns (ok: bool)
      requires Deployment.Complete(s.config) && Contained(s.data)
      modifies `files, `volume, `serving, `step, `handed
      ensures step > old(step) && (ok <==> AllFine(old(step), step))
      ensures ok ==> files == s.config && handed == s.data && serving
      ensures LeftDown()
    {
      ok := Command();
      if !ok {
        assert !oracle(step - 1).ok;
        return;
      }
      ok := Unpack(s.data);
      if ok {
        ok := WriteConfig(s.config);
      } else {
        assert !oracle(step - 1).ok;
      }
      ghost var before := step;
      var restarted := Up();
      assert AllFine(old(step), step) <==> AllFine(old(step), before) && restarted;
      ok := ok && restarted;
    }

    /** Without a safety backup, a restore succeeds exactly if the backup fits and every step goes well;
        then the configuration is the backup's, and the services run on the backup's data. Environment
        and manifest still agree, because every backup was taken of a deployment in which they did. */
    method Restore(path: string, safety: Option<string>) returns (ok: bool)
      modifies `files, `volume, `serving, `snapshots, `begun, `step, `handed
      ensures step >= old(step)
      ensures ok ==> Restorable(w, old(files), old(snapshots), path) && serving
                     && files == old(snapshots)[path].config && handed == old(snapshots)[path].data
      ensures LeftDown()
      ensures safety.None? ==> snapshots == old(snapshots)
      ensures OnlyAdded(old(snapshots), snapshots, old(files))
      ensures ok && old(Consistent()) ==> Consistent()
      ensures safety.None? ==> (ok <==> Restorable(w, old(files), old(snapshots), path) && AllFine(old(step), step))
      ensures !Restorable(w, old(files), old(snapshots), path) ==>
                files == old(files) && volume == old(volume) && handed == old(handed)
    {
      var m := LoadManifest(w, files);
      if m.None? || path !in snapshots { return false; }
      var s := snapshots[path];
      var verified := VerifyBackup(s);
      if !verified || s.project != m.value.project { return false; }
      if safety.Some? {
        ok := Backup(safety.value);
        if !ok { return; }
      }
      ok := Reinstall(s);
    }

    // ---- Changing the release ----

    /** Pull the images of the target. */
    method Pull() returns (ok: bool)
      modifies `step
      ensures step >= old(step)
      ensures (ok <==> AllFine(old(step), old(step) + 2)) && (ok ==> step == old(step) + 2)
    {
      var core := Take();
      if !core.ok { return false; }
      var control := Take();
      ok := control.ok;
    }

    /** Changes of protocol or data format are not supported; the rest the target's own check decides. */
    method CheckMigration(current: Release, target: Release) returns (ok: bool)
      modifies `step
      ensures step >= old(step)
      ensures ok <==> && current.internalProtocol == target.internalProtocol
                      && current.coreDataFormat == target.coreDataFormat && AllFine(old(step), old(step) + 1)
      ensures ok ==> step == old(step) + 1
    {
      if current.internalProtocol != target.internalProtocol || current.coreDataFormat != target.coreDataFormat {
        return false;
      }
      var checked := Take();
      ok := checked.ok;
    }

    /** Read the four files that a change writes. */
    method ReadOldFiles() returns (ok: bool)
      modifies `step
      ensures step >= old(step)
      ensures (ok <==> AllFine(old(step), old(step) + 4)) && (ok ==> step == old(step) + 4)
    {
      var i := 0;
      while i < 4
        modifies `step
        invariant 0 <= i <= 4 && step == old(step) + i && AllFine(old(step), step)
      {
        var read := Take();
        if !read.ok {
          assert !oracle(step - 1).ok;
          return false;
        }
        i := i + 1;
      }
      ok := true;
    }

    /** Everything before the first write: pull both images, check the migration, back up, read the old files.
        It succeeds exactly if the releases agree in protocol and data format, a backup is possible, and
        all of its nineteen steps go well. */
    method Prepare(current: Release, target: Release, path: string) returns (ok: bool)
      modifies `volume, `serving, `snapshots, `begun, `step, `handed
      ensures step >= old(step) && OnlyAdded(old(snapshots), snapshots, files) && LeftDown()
      ensures ok <==> && current.internalProtocol == target.internalProtocol
                      && current.coreDataFormat == target.coreDataFormat
                      && Possible(w, files, old(snapshots), old(begun), path) && AllFine(old(step), old(step) + 19)
      ensures ok ==> step == old(step) + 19
      ensures ok ==> && serving && Deployment.Complete(files) && LoadManifest(w, files).Some?
                     && path in snapshots
                        && snapshots[path] == SnapshotOf(w, files, handed, LoadManifest(w, files).value.project)
    {
      ok := Pull();
      if !ok { return; }
      ok := CheckMigration(current, target);
      if !ok { return; }
      assert AllFine(old(step), step) && step == old(step) + 3;
      ok := Backup(path);
      assert ok <==> Possible(w, files, old(snapshots), old(begun), path) && AllFine(old(step), old(step) + 15);
      if !ok { return; }
      ok := ReadOldFiles();
      assert ok <==> AllFine(old(step), old(step) + 19);
    }

    /** The signing key is as before. */
    static predicate SameKeys(files: Files, before: Files)
    {
      && PrivateKey in files && PublicKey in files && PrivateKey in before && PublicKey in before
      && files[PrivateKey] == before[PrivateKey] && files[PublicKey] == before[PublicKey]
    }

    /** Put back the four files a change writes, whatever becomes of each write. */
    method RestoreOldFiles(before: Files) returns (ok: bool)
      requires Deployment.Complete(before)
      modifies `files, `step
      ensures step == old(step) + 4 && (ok <==> AllFine(old(step), step))
      ensures ok && SameKeys(old(files), before) ==> files == before
    {
      var environment := WriteFile(Env, before[Env]);
      var manifest := WriteFile(ManifestFile, before[ManifestFile]);
      var compose := WriteFile(Compose, before[Compose]);
      var caddyfile := WriteFile(Caddyfile, before[Caddyfile]);
      ok := environment && manifest && compose && caddyfile;
      assert AllFine(old(step), step) <==>
               oracle(old(step)).ok && oracle(old(step) + 1).ok && oracle(old(step) + 2).ok && oracle(old(step) + 3).ok;
      if ok && SameKeys(old(files), before) {
        forall n: Name
          ensures n in files && files[n] == before[n]
        {
          match n {
            case Env => case Compose => case Caddyfile => case ManifestFile => case PrivateKey => case PublicKey =>
          }
        }
      }
    }

    /** The four writes of a change, in order; the first that fails ends them. Nothing is undone here. */
    method WriteNewFiles(environment: string, m: Manifest) returns (written: nat)
      modifies `files, `step
      ensures written <= 4 && step == old(step) + (if written == 4 then 4 else written + 1)
      ensures AllFine(old(step), old(step) + written) && (written < 4 ==> !oracle(step - 1).ok)
      ensures written == 4 <==> AllFine(old(step), old(step) + 4)
      ensures written == 4 ==> files == ChangedFiles(w, old(files), m, environment)
      ensures written == 0 ==> files == Torn(old(files), Env, oracle(step - 1))
      ensures forall n: Name :: n == PrivateKey || n == PublicKey ==>
                (n in files <==> n in old(files)) && (n in files ==> files[n] == old(files)[n])
    {
      var ok := WriteFile(Env, environment);
      if !ok { return 0; }
      ok := WriteFile(ManifestFile, w.encode(m));
      if !ok { return 1; }
      ok := WriteFile(Compose, w.compose);
      if !ok { return 2; }
      ok := WriteFile(Caddyfile, w.caddyfile);
      written := if ok then 4 else 3;
    }

    /** Stop the front, migrate, start: the commands that put a new release to work. */
    method ApplyCommands() returns (ok: bool)
      modifies `volume, `serving, `step, `handed
      ensures step > old(step)
      ensures ok ==> AllFine(old(step), step) && serving
      ensures !ok ==> AllFine(old(step), step - 1) && !oracle(step - 1).ok
      ensures (ok <==> AllFine(old(step), old(step) + 3)) && (ok ==> step == old(step) + 3)
    {
      ok := Command();
      if !ok { return; }
      ok := Command();
      if !ok { return; }
      ok := Up();
    }

    /** Write the old files back; stops at the first write that fails. */
    method WriteBack(before: Files) returns (ok: bool)
      requires Deployment.Complete(before) && SameKeys(files, before)
      modifies `files, `step
      ensures step > old(step) && (ok <==> AllFine(old(step), step))
      ensures ok ==> files == before
    {
      ok := WriteFile(Env, before[Env]);
      if !ok { return; }
      ok := WriteFile(ManifestFile, before[ManifestFile]);
      if !ok { return; }
      ok := WriteFile(Compose, before[Compose]);
      if !ok { return; }
      ok := WriteFile(Caddyfile, before[Caddyfile]);
      if !ok { return; }
      FourWrites(old(files), before, files);
    }

    /** Write the old files back, then restore the backup. */
    method RestoreFailedRelease(before: Files, path: string, ghost data: Volume) returns (ok: bool)
      requires Deployment.Complete(before) && SameKeys(files, before) && LoadManifest(w, before).Some?
      requires path in snapshots
      requires snapshots[path] == SnapshotOf(w, before, data, LoadManifest(w, before).value.project)
      modifies `files, `volume, `serving, `snapshots, `begun, `step, `handed
      ensures step >= old(step) && snapshots == old(snapshots)
      ensures ok <==> AllFine(old(step), step) && Plain(data)
      ensures ok ==> files == before && handed == data && serving
    {
      ok := WriteBack(before);
      if !ok { return; }
      BackupVerifies(w, before, data, LoadManifest(w, before).value.project);
      ghost var middle := step;
      ok := Restore(path, None);
      assert AllFine(old(step), step) <==> AllFine(middle, step);
    }

    static lemma FourWrites(start: Files, before: Files, after: Files)
      requires Deployment.Complete(before) && SameKeys(start, before)
      requires after == start[Env := before[Env]][ManifestFile := before[ManifestFile]]
                             [Compose := before[Compose]][Caddyfile := before[Caddyfile]]
      ensures after == before
    {
      forall n: Name
        ensures n in after && after[n] == before[n]
      {
        match n {
          case Env => case Compose => case Caddyfile => case ManifestFile => case PrivateKey => case PublicKey =>
        }
      }
    }

    /** The commands, and the undoing if one of them fails. */
    method Activate(before: Files, path: string, ghost data: Volume)
      returns (applied: bool, undone: bool, ghost failed: nat)
      requires Deployment.Complete(before) && SameKeys(files, before) && LoadManifest(w, before).Some?
      requires path in snapshots
      requires snapshots[path] == SnapshotOf(w, before, data, LoadManifest(w, before).value.project)
      modifies `files, `volume, `serving, `snapshots, `begun, `step, `handed
      ensures snapshots == old(snapshots) && step >= old(step)
      ensures (applied <==> AllFine(old(step), old(step) + 3)) && (applied ==> step == old(step) + 3)
      ensures applied ==> files == old(files) && serving && !undone
      ensures !applied ==> failed < step && !oracle(failed).ok
                           && (undone <==> AllFine(failed + 1, step) && Plain(data))
                           && (undone ==> files == before && handed == data && serving)
    {
      undone := false;
      applied := ApplyCommands();
      failed := step - 1;
      if !applied {
        undone := RestoreFailedRelease(before, path, data);
      }
    }

    /** From the first write on: the new files, the commands, and the undoing of what fails. */
    method Switch(before: Files, environment: string, m: Manifest, path: string, ghost data: Volume)
      returns (stage: Stage, undone: bool, ghost failed: nat)
      requires Deployment.Complete(before) && files == before && LoadManifest(w, before).Some?
      requires path in snapshots
      requires snapshots[path] == SnapshotOf(w, before, data, LoadManifest(w, before).value.project)
      modifies `files, `volume, `serving, `snapshots, `begun, `step, `handed
      ensures snapshots == old(snapshots) && !stage.Preparing? && step >= old(step)
      ensures (stage.Complete? <==> AllFine(old(step), old(step) + 7)) && (stage.Complete? ==> step == old(step) + 7)
      ensures stage.WritingEnvironment? ==> files == Torn(before, Env, oracle(failed)) && !undone
      ensures stage.WritingRest? || stage.Applying? ==>
                failed < step && !oracle(failed).ok && (undone ==> files == before)
      ensures stage.WritingRest? ==> (undone <==> AllFine(failed + 1, step))
      ensures stage.Applying? ==> (undone <==> AllFine(failed + 1, step) && Plain(data)) && (undone ==> handed == data)
      ensures stage.Complete? ==> files == ChangedFiles(w, before, m, environment)
      ensures stage.Complete? || undone || stage.WritingEnvironment? || stage.WritingRest? ==> serving || !old(serving)
    {
      var written := WriteNewFiles(environment, m);
      failed := step - 1;
      if written == 0 { return WritingEnvironment, false, failed; }
      if written < 4 {
        undone := RestoreOldFiles(before);
        return WritingRest, undone, failed;
      }
      var applied;
      applied, undone, failed := Activate(before, path, data);
      assert applied <==> AllFine(old(step), old(step) + 7);
      stage := if applied then Stage.Complete else Applying;
    }

    /** Change to the target release. m is the manifest to start from, its release the current one.
        If it completes, the four files are the new ones. If it fails before the first write, nothing
        has changed. If the write of the environment fails, that file is left as the write left it, and
        nothing is undone. If it fails later, the change undoes itself: all files are as before, and after
        a failed command the services run on the volume of the backup. The services are left down only
        when the last step of the preparation failed, or the undoing after a failed command. The undoing
        succeeds exactly if each of its own steps does and, for the backup to be accepted, the volume
        holds no links. And it completes, in 26 steps, exactly if the releases agree in protocol and data
        format, a backup is possible, the environment takes the new images, and all of the steps go well. */
    method ChangeRelease(m: Manifest, target: Release, path: string)
      returns (stage: Stage, undone: bool, ghost failed: nat, ghost added: seq<string>)
      requires LoadManifest(w, files).Some?
      modifies `files, `volume, `serving, `snapshots, `begun, `step, `handed
      ensures OnlyAdded(old(snapshots), snapshots, old(files)) && step >= old(step)
      ensures stage.Complete? <==>
                && m.release.internalProtocol == target.internalProtocol
                && m.release.coreDataFormat == target.coreDataFormat
                && Possible(w, old(files), old(snapshots), old(begun), path)
                && !Refused(LinesOf(old(files)[Env]), Images(target)) && AllFine(old(step), old(step) + 26)
      ensures stage.Complete? ==> step == old(step) + 26
      ensures stage.Preparing? ==> files == old(files) && LeftDown()
      ensures stage.Complete? || undone || stage.WritingEnvironment? || stage.WritingRest? ==> serving
      ensures stage.WritingEnvironment? ==>
                Env in old(files) && files == Torn(old(files), Env, oracle(failed)) && !undone
      ensures stage.WritingRest? || stage.Applying? ==>
                failed < step && !oracle(failed).ok && (undone ==> files == old(files))
      ensures stage.WritingRest? ==> (undone <==> AllFine(failed + 1, step))
      ensures stage.Applying? ==>
                path in snapshots && (undone <==> AllFine(failed + 1, step) && Plain(snapshots[path].data))
      ensures stage.Applying? && undone ==> handed == snapshots[path].data
      ensures stage.Complete? ==>
                && Env in old(files) && !Refused(LinesOf(old(files)[Env]), Images(target))
                   && IsMissing(added, LinesOf(old(files)[Env]), Images(target))
                && files ==
                   ChangedFiles(w, old(files), Changed(m, target), NewFile(old(files)[Env], Images(target), added))
      ensures stage.Complete? ==>
                && Deployment.Complete(files) && SameKeys(files, old(files))
                && files[Compose] == w.compose && files[Caddyfile] == w.caddyfile
    {
      undone, failed, added := false, 0, [];
      var prepared := Prepare(m.release, target, path);
      if !prepared { return Preparing, false, failed, added; }
      ghost var data := handed;
      var before := files;
      var environment: Result<string>;
      environment, added := ReplaceEnvironment(before[Env], Images(target));
      if environment.Err? { return Preparing, false, failed, added; }
      stage, undone, failed := Switch(before, environment.value, Changed(m, target), path, data);
      assert stage.Complete? <==> AllFine(old(step), old(step) + 26);
    }

    // ---- The commands ----

    /** The change did not begin, or was undone. */
    static predicate AsBefore(stage: Stage, undone: bool) {
      stage.Preparing? || (undone && (stage.WritingRest? || stage.Applying?))
    }

    /** What a completed change means: the manifest read next is the changed one, and agreement is kept. */
    static lemma ChangeDone(w: Setting, before: Files, changed: Manifest, added: seq<string>, after: Files)
      requires Lossless(w) && Env in before && NormalizeManifest(changed) == changed
      requires !Refused(LinesOf(before[Env]), Images(changed.release))
      requires IsMissing(added, LinesOf(before[Env]), Images(changed.release))
      requires after == ChangedFiles(w, before, changed, NewFile(before[Env], Images(changed.release), added))
      ensures LoadManifest(w, after) == Some(changed) && (Agree(w, before) ==> Agree(w, after))
    {
      LoadedAgain(w, before, changed, NewFile(before[Env], Images(changed.release), added));
      if Agree(w, before) {
        ChangeAgrees(w, before, changed, added);
      }
    }

    /** The target fits the tool, and so does what it is to replace. */
    static predicate Fits(m: Manifest, target: Release) {
      && IsPinned(target.controlImage) && IsPinned(target.coreImage)
      && target.internalProtocol == 1 && target.coreDataFormat == 1
      && target.controlSchema == 1 && target.bundleVersion == 2
      && m.release.internalProtocol == 1 && m.release.coreDataFormat == 1
    }

    /** An upgrade completes exactly if the release resolved is the one asked for, genuine, pinned,
        compatible and not the current one, a backup is possible, the environment takes the new images,
        and all 26 steps go well. It moves to that release and remembers where it came from. */
    method Upgrade(version: string, resolved: Option<Release>, genuine: bool, path: string)
      returns (stage: Stage, undone: bool, ghost failed: nat)
      modifies `files, `volume, `serving, `snapshots, `begun, `step, `handed
      ensures AsBefore(stage, undone) ==> files == old(files) && (old(Consistent()) ==> Consistent())
      ensures stage.Complete? <==>
                && version != "" && resolved.Some? && resolved.value.version == version && genuine
                && Possible(w, old(files), old(snapshots), old(begun), path)
                && LoadManifest(w, old(files)).Some?
                && Normalize(resolved.value) != LoadManifest(w, old(files)).value.release
                && Fits(LoadManifest(w, old(files)).value, Normalize(resolved.value))
                && !Refused(LinesOf(old(files)[Env]), Images(resolved.value)) && AllFine(old(step), old(step) + 26)
      ensures stage.Complete? && Lossless(w) ==>
                && resolved.Some? && LoadManifest(w, old(files)).Some?
                && Permitted(LoadManifest(w, old(files)).value, Change.Upgrade(Normalize(resolved.value)))
                && LoadManifest(w, files) ==
                   Some(Apply(LoadManifest(w, old(files)).value, Change.Upgrade(Normalize(resolved.value))))
      ensures stage.Complete? && Lossless(w) && old(Consistent()) ==> Consistent()
    {
      undone, failed := false, 0;
      if version == "" || resolved.None? { return Preparing, false, failed; }
      var target := Normalize(resolved.value);
      FixedMeansPinned(target.controlImage);
      FixedMeansPinned(target.coreImage);
      CompatibleIs(target);
      if target.version != version || !FixedImage(target.controlImage) || !FixedImage(target.coreImage) {
        return Preparing, false, failed;
      }
      if !Compatible(target) || !genuine { return Preparing, false, failed; }
      var m := LoadManifest(w, files);
      if m.None? || target == m.value.release { return Preparing, false, failed; }
      ghost var added;
      stage, undone, failed, added := ChangeRelease(m.value, target, path);
      if stage.Complete? && Lossless(w) {
        NormalizedTwice(old(files)[ManifestFile], w, target);
        ChangeDone(w, old(files), Changed(m.value, target), added, files);
      }
    }

    /** A rollback completes exactly if there is a previous release, the latest of them is pinned and
        compatible, a backup is possible, the environment takes its images, and all 26 steps go well.
        It moves to that release. */
    method Rollback(path: string) returns (stage: Stage, undone: bool, ghost failed: nat)
      modifies `files, `volume, `serving, `snapshots, `begun, `step, `handed
      ensures AsBefore(stage, undone) ==> files == old(files) && (old(Consistent()) ==> Consistent())
      ensures stage.Complete? <==>
                && Possible(w, old(files), old(snapshots), old(begun), path)
                && LoadManifest(w, old(files)).Some? && LoadManifest(w, old(files)).value.previous != []
                && var m := LoadManifest(w, old(files)).value;
                   var target := m.previous[|m.previous| - 1];
                   && Fits(m, target) && !Refused(LinesOf(old(files)[Env]), Images(target))
                   && AllFine(old(step), old(step) + 26)
      ensures stage.Complete? && Lossless(w) ==>
                && LoadManifest(w, old(files)).Some? && Permitted(LoadManifest(w, old(files)).value, Change.Rollback)
                && LoadManifest(w, files) == Some(Apply(LoadManifest(w, old(files)).value, Change.Rollback))
      ensures stage.Complete? && Lossless(w) && old(Consistent()) ==> Consistent()
    {
      undone, failed := false, 0;
      var m := LoadManifest(w, files);
      if m.None? || m.value.previous == [] { return Preparing, false, failed; }
      var last := |m.value.previous| - 1;
      var target := m.value.previous[last];
      FixedMeansPinned(target.controlImage);
      FixedMeansPinned(target.coreImage);
      CompatibleIs(target);
      if !FixedImage(target.controlImage) || !FixedImage(target.coreImage) || !Compatible(target) {
        return Preparing, false, failed;
      }
      var shortened := m.value.(previous := m.value.previous[..last]);
      ghost var added;
      stage, undone, failed, added := ChangeRelease(shortened, target, path);
      if stage.Complete? && Lossless(w) {
        RolledBackIsNormal(w.decode(old(files)[ManifestFile]).value);
        ChangeDone(w, old(files), Changed(shortened, target), added, files);
      }
    }

    static lemma NormalizedTwice(text: string, w: Setting, target: Release)
      requires w.decode(text).Some? && Normalize(target) == target
      ensures var m := NormalizeManifest(w.decode(text).value);
              NormalizeManifest(Changed(m, target)) == Changed(m, target)
    {
      ChangedIsNormal(NormalizeManifest(w.decode(text).value), target);
    }

    static lemma ChangedIsNormal(m: Manifest, target: Release)
      requires NormalizeManifest(m) == m && Normalize(target) == target
      ensures NormalizeManifest(Changed(m, target)) == Changed(m, target)
    {
      forall i | 0 <= i < |m.previous|
        ensures Normalize(m.previous[i]) == m.previous[i]
      {
        assert NormalizeAll(m.previous)[i] == m.previous[i];
      }
    }

    static lemma RolledBackIsNormal(raw: Manifest)
      requires raw.previous != []
      ensures var m := NormalizeManifest(raw); NormalizeManifest(RolledBack(m)) == RolledBack(m)
    {
      var m := NormalizeManifest(raw);
      var last := |m.previous| - 1;
      assert NormalizeAll(m.previous) == m.previous;
      assert Normalize(m.previous[last]) == m.previous[last];
      var shortened := m.(previous := m.previous[..last]);
      assert NormalizeAll(shortened.previous) == shortened.previous;
      ChangedIsNormal(shortened, m.previous[last]);
    }

    /** The operator's key, trimmed: 8 to 512 characters without blanks. */
    static predicate KeyOK(raw: string) {
      8 <= |raw| <= 512 && '\r' !in raw && '\n' !in raw && '\t' !in raw && ' ' !in raw
    }

    /** No file but the environment is different. */
    static ghost predicate OthersStay(before: Files, after: Files) {
      forall n: Name :: n != Env ==> (n in after <==> n in before) && (n in after ==> after[n] == before[n])
    }

    static lemma KeyIsSet(w: Setting, files: Files, raw: string, added: seq<string>)
      requires KeyOK(raw) && Env in files && !Refused(LinesOf(files[Env]), map[API_KEY := raw])
      requires IsMissing(added, LinesOf(files[Env]), map[API_KEY := raw])
      ensures var data := NewFile(files[Env], map[API_KEY := raw], added);
              Says(LinesOf(data), API_KEY, raw) && (Agree(w, files) ==> Agree(w, files[Env := data]))
    {
      NewKeySaid(files[Env], raw, added);
      if Agree(w, files) {
        NewKeyAgrees(w, files, raw, added);
      }
    }

    /** Rewrite the key line with a key that has been checked. */
    method WriteKey(raw: string) returns (ok: bool, ghost added: seq<string>)
      requires KeyOK(raw) && Env in files
      modifies `files, `step
      ensures ok <==> AllFine(old(step), old(step) + 2)
      ensures ok ==> !Refused(LinesOf(old(files)[Env]), map[API_KEY := raw])
                     && IsMissing(added, LinesOf(old(files)[Env]), map[API_KEY := raw])
                     && files == old(files)[Env := NewFile(old(files)[Env], map[API_KEY := raw], added)]
      ensures OthersStay(old(files), files)
    {
      ok, added := false, [];
      var read := Take();
      if !read.ok { return; }
      var updated;
      updated, added := ReplaceEnvironment(files[Env], map[API_KEY := raw]);
      if updated.Err? { return; }
      ok := WriteFile(Env, updated.value);
    }

    /** Setting the key succeeds exactly for a key of 8 to 512 characters without blanks, if the manifest can be
        read, there is an environment, and both steps go well. It changes nothing but the environment's key line. */
    method SetAPIKey(raw: string) returns (ok: bool, ghost added: seq<string>)
      modifies `files, `step
      ensures ok <==> && 8 <= |raw| <= 512 && (forall i :: 0 <= i < |raw| ==> raw[i] !in "\r\n\t ")
                      && ManifestFile in old(files) && w.decode(old(files)[ManifestFile]).Some?
                      && Env in old(files) && AllFine(old(step), old(step) + 2)
      ensures ok ==> Env in old(files) && Env in files && Says(LinesOf(files[Env]), "BARQ_API_KEY", raw)
      ensures ok ==> IsMissing(added, LinesOf(old(files)[Env]), map[API_KEY := raw])
                     && files[Env] == NewFile(old(files)[Env], map[API_KEY := raw], added)
      ensures OthersStay(old(files), files)
      ensures !KeyOK(raw) ==> !ok && files == old(files)
      ensures ok && old(Consistent()) ==> Consistent()
    {
      assert KeyOK(raw) <==> 8 <= |raw| <= 512 && forall i :: 0 <= i < |raw| ==> raw[i] !in "\r\n\t ";
      if LoadManifest(w, files).None? || !KeyOK(raw) || Env !in files { return false, []; }
      ok, added := WriteKey(raw);
      if ok {
        KeyIsSet(w, old(files), raw, added);
      }
    }
  }
}
