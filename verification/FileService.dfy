/** The file handlers: uploads, versions, downloads, metadata and retention. */
module FileServices {
  import opened Wrappers
  import opened Paths
  import opened Tables
  import opened Permissions
  import opened Tree
  import opened Access
  import opened Cas
  import opened VersionRows
  import opened SqliteManagers

  datatype Uploaded = Uploaded(file: nat, version: nat)

  function LocatorOf(digest: Bytes -> Bytes, content: Bytes): string { UriOf(SCHEME, Encode(digest(content))) }

  /** The hash column: the last part of the locator, decoded. */
  function HashColumn(uri: string): Bytes { Decode(LastPart(uri)) }

  lemma HashOfLocator(digest: Bytes -> Bytes, content: Bytes)
    ensures HashColumn(LocatorOf(digest, content)) == digest(content)
  {
    UriRoundTrip(SCHEME, Encode(digest(content)));
    DecodeEncode(digest(content));
  }

  ghost predicate NameTaken(files: Files, folder: nat, name: string) {
    exists i :: LiveFile(files, i) && files[i].folder == folder && files[i].name == name
  }

  ghost function UploadFileStep(
    digest: Bytes -> Bytes, db: Database, objects: Objects,
    u: nat, folder: nat, name: string, meta: Bytes, stream: Stream): (Database, Objects, Reply<Uploaded>)
  {
    var mask := Effective(db.folders, db.grants, u, folder);
    if mask.None? then (db, objects, Internal)
    else if !Has(mask.value, PERM_CREATE) then (db, objects, PermissionDenied)
    else if NameTaken(db.files, folder, name) then (db, objects, AlreadyExists)
    else UploadAccepted(digest, db, objects, u, folder, name, meta, stream)
  }

  /** The part after the checks: the content first, then the rows. */
  function UploadAccepted(
    digest: Bytes -> Bytes, db: Database, objects: Objects,
    u: nat, folder: nat, name: string, meta: Bytes, stream: Stream): (Database, Objects, Reply<Uploaded>)
  {
    if stream.failed then (db, objects, Internal)
    else
      var content := Concat(stream.chunks);
      var objects' := Stored(objects, digest, content);
      if !Live(db.folders, folder) then (db, objects', Internal)
      else
        var i, v, uri := db.nextFile, db.nextVersion, LocatorOf(digest, content);
        var row := File(name, folder, ChildPath(db.folders, folder), uri, SCHEME, Some(v), meta, None);
        (db.(files := db.files[i := row], nextFile := i + 1,
             versions := db.versions[v := Version(i, VersionName(1), HashColumn(uri), u)], nextVersion := v + 1),
         objects', Ok(Uploaded(i, v)))
  }

  /** One more than the largest version number of the file. */
  ghost function NextNumber(vs: Versions, file: nat): nat {
    if exists max: nat :: IsMaxNumber(vs, file, max) then var max: nat :| IsMaxNumber(vs, file, max); max + 1 else 1
  }

  lemma NextNumberIs(vs: Versions, file: nat, max: nat)
    requires IsMaxNumber(vs, file, max)
    ensures NextNumber(vs, file) == max + 1
  {
  }

  function RetentionOf(fs: Folders, folder: nat): nat { if folder in fs then fs[folder].retention else 0 }

  function VersionsAfterUpload(vs: Versions, v: nat, row: Version, retention: nat): Versions {
    if retention == 0 then vs[v := row] else Pruned(vs[v := row], row.file, retention)
  }

  /** The tables after one more upload of file i, with pruning to n rows. */
  function NextTables(db: Database, i: nat, uri: string, version: Version, n: nat): Database
    requires i in db.files
  {
    db.(files := db.files[i := db.files[i].(version := Some(db.nextVersion), storagePath := uri, location := SCHEME)],
        versions := VersionsAfterUpload(db.versions, db.nextVersion, version, n), nextVersion := db.nextVersion + 1)
  }

  ghost function UploadVersionStep(
    digest: Bytes -> Bytes, db: Database, objects: Objects,
    u: nat, file: nat, stream: Stream): (Database, Objects, Reply<Uploaded>)
  {
    if !LiveFile(db.files, file) then (db, objects, NotFound)
    else
      var row := db.files[file];
      var mask := Effective(db.folders, db.grants, u, row.folder);
      if mask.None? then (db, objects, Internal)
      else if !Has(mask.value, PERM_WRITE) then (db, objects, PermissionDenied)
      else VersionAccepted(digest, db, objects, u, file, stream)
  }

  /** The part after the checks: the content, the row under the next number, the pointer, pruning. */
  ghost function VersionAccepted(
    digest: Bytes -> Bytes, db: Database, objects: Objects,
    u: nat, file: nat, stream: Stream): (Database, Objects, Reply<Uploaded>)
    requires file in db.files
  {
    if stream.failed then (db, objects, Internal)
    else
      var content := Concat(stream.chunks);
      var uri := LocatorOf(digest, content);
      var version := Version(file, VersionName(NextNumber(db.versions, file)), HashColumn(uri), u);
      (NextTables(db, file, uri, version, RetentionOf(db.folders, db.files[file].folder)),
       Stored(objects, digest, content), Ok(Uploaded(file, db.nextVersion)))
  }

  /** The locator a download resolves: the file's own, or the one rebuilt from a version's hash. */
  function DownloadUri(db: Database, file: nat, v: nat): Option<string>
    requires file in db.files
  {
    if v == 0 then Some(db.files[file].storagePath)
    else if v in db.versions && db.versions[v].file == file
    then Some(UriOf(db.files[file].location, Encode(db.versions[v].hash)))
    else None
  }

  function DownloadStep(db: Database, objects: Objects, u: nat, file: nat, v: nat): Reply<Bytes> {
    if !LiveFile(db.files, file) then NotFound
    else
      var mask := Effective(db.folders, db.grants, u, db.files[file].folder);
      if mask.None? then Internal
      else if !Has(mask.value, PERM_READ) then PermissionDenied
      else match DownloadUri(db, file, v)
        case None => NotFound
        case Some(uri) =>
          match Retrieved(objects, uri)
          case None => Internal
          case Some(content) => Ok(content)
  }

  function ModifyFileStep(
    db: Database, u: nat, file: nat, name: Option<string>, folder: Option<nat>, meta: Bytes): (Database, Reply<File>)
  {
    if !LiveFile(db.files, file) then (db, NotFound)
    else
      var mask := Effective(db.folders, db.grants, u, db.files[file].folder);
      if mask.None? then (db, Internal)
      else if (name.Some? || folder.Some?) && !Has(mask.value, PERM_RENAME) then (db, PermissionDenied)
      else if name.None? && folder.None? && meta != [] && !Has(mask.value, PERM_WRITE) then (db, PermissionDenied)
      else UpdatesApplied(db, file, name, folder, meta)
  }

  /** Rename, then move, then metadata; a missing target folder leaves the rename in place. */
  function UpdatesApplied(
    db: Database, file: nat, name: Option<string>, folder: Option<nat>, meta: Bytes): (Database, Reply<File>)
    requires LiveFile(db.files, file)
  {
    var row := db.files[file];
    var named := if name.Some? then row.(name := name.value) else row;
    if folder.Some? && !Live(db.folders, folder.value) then (db.(files := db.files[file := named]), NotFound)
    else
      var placed := if folder.Some?
                    then named.(folder := folder.value, path := ChildPath(db.folders, folder.value)) else named;
      var final := if meta != [] then placed.(metadata := meta) else placed;
      (db.(files := db.files[file := final]), Ok(final))
  }

  function SetRetentionStep(db: Database, u: nat, folder: nat, lastN: nat): (Database, Reply<()>) {
    var mask := Effective(db.folders, db.grants, u, folder);
    if mask.None? then (db, Internal)
    else if !Has(mask.value, PERM_ADMIN) then (db, PermissionDenied)
    else (db.(folders := if folder in db.folders
                         then db.folders[folder := db.folders[folder].(retention := lastN)] else db.folders), Ok(()))
  }

  function DeleteFileStep(db: Database, u: nat, file: nat, now: nat): (Database, Reply<()>) {
    if !LiveFile(db.files, file) then (db, NotFound)
    else
      var mask := Effective(db.folders, db.grants, u, db.files[file].folder);
      if mask.None? then (db, Internal)
      else if !Has(mask.value, PERM_DELETE) then (db, PermissionDenied)
      else (db.(files := db.files[file := db.files[file].(deletedAt := Some(now))]), Ok(()))
  }

  class FileService {
    const store: SqliteManager
    const registry: CASRegistry
    const local: LocalStorage

    /** The server registers the local storage and nothing else. */
    constructor (store: SqliteManager, registry: CASRegistry, local: LocalStorage)
      requires registry.providers == map[SCHEME := local]
      ensures Valid() && this.store == store && this.local == local
    {
      this.store, this.registry, this.local := store, registry, local;
    }

    ghost predicate Valid()
      reads registry
    {
      registry.providers == map[SCHEME := local]
    }

    /** Every interleaving of the pipe behind this call is covered by module Pipe. */
    method UploadStreamToCAS(stream: Stream) returns (uri: Option<string>)
      requires Valid()
      modifies local
      ensures Valid()
      ensures stream.failed ==> uri == None && local.objects == old(local.objects)
      ensures !stream.failed ==> uri == Some(LocatorOf(local.digest, Concat(stream.chunks)))
      ensures !stream.failed ==> local.objects == Stored(old(local.objects), local.digest, Concat(stream.chunks))
    {
      assert forall k | k in registry.providers :: registry.providers[k] == local;
      assert forall p | p in registry.providers.Values :: p == local;
      uri := registry.StoreInDefault(SCHEME, stream);
    }

    method UploadFile(u: nat, folder: nat, name: string, meta: Bytes, stream: Stream) returns (r: Reply<Uploaded>)
      requires Valid()
      modifies store, local
      ensures (store.Db(), local.objects, r)
           == UploadFileStep(local.digest, old(store.Db()), old(local.objects), u, folder, name, meta, stream)
    {
      var mask := store.GetUserEffectivePermissions(u, folder);
      if mask.None? {
        return Internal;
      }
      if !Has(mask.value, PERM_CREATE) {
        return PermissionDenied;
      }
      var taken := store.GetFileByName(folder, name);
      if taken.Some? {
        return AlreadyExists;
      }
      r := AcceptUpload(u, folder, name, meta, stream);
    }

    method AcceptUpload(u: nat, folder: nat, name: string, meta: Bytes, stream: Stream) returns (r: Reply<Uploaded>)
      requires Valid()
      modifies store, local
      ensures (store.Db(), local.objects, r)
           == UploadAccepted(local.digest, old(store.Db()), old(local.objects), u, folder, name, meta, stream)
    {
      var uri := UploadStreamToCAS(stream);
      if uri.None? {
        return Internal;
      }
      var row := store.GetFolder(folder);
      if row.None? {
        return Internal;
      }
      var path := row.value.path + Str(folder) + "/";
      var uploaded := RecordFile(u, folder, name, path, meta, uri.value);
      r := Ok(uploaded);
    }

    /** The file row without a version, its first version, and the link between them. */
    method RecordFile(u: nat, folder: nat, name: string, path: string, meta: Bytes, uri: string)
      returns (r: Uploaded)
      modifies store
      ensures r == Uploaded(old(store.nextFile), old(store.nextVersion))
      ensures store.Db() == old(store.Db()).(
                files := old(store.files)[r.file := File(name, folder, path, uri, SCHEME, Some(r.version), meta, None)],
                nextFile := r.file + 1,
                versions := old(store.versions)[r.version := Version(r.file, VersionName(1), HashColumn(uri), u)],
                nextVersion := r.version + 1)
    {
      var i := store.CreateFile(name, folder, path, uri, SCHEME, meta);
      var v := store.CreateVersion(i, "v1", HashColumn(uri), u);
      store.UpdateFileVersion(i, v, uri, SCHEME);
      assert VersionName(1) == "v1";
      r := Uploaded(i, v);
    }

    method UploadVersion(u: nat, file: nat, stream: Stream) returns (r: Reply<Uploaded>)
      requires Valid()
      modifies store, local
      ensures (store.Db(), local.objects, r)
           == UploadVersionStep(local.digest, old(store.Db()), old(local.objects), u, file, stream)
    {
      var row := store.GetFile(file);
      if row.None? {
        return NotFound;
      }
      var folder := row.value.folder;
      var mask := store.GetUserEffectivePermissions(u, folder);
      if mask.None? {
        return Internal;
      }
      if !Has(mask.value, PERM_WRITE) {
        return PermissionDenied;
      }
      r := AcceptVersion(u, file, folder, stream);
    }

    method AcceptVersion(u: nat, file: nat, folder: nat, stream: Stream) returns (r: Reply<Uploaded>)
      requires Valid() && file in store.files && store.files[file].folder == folder
      modifies store, local
      ensures (store.Db(), local.objects, r)
           == VersionAccepted(local.digest, old(store.Db()), old(local.objects), u, file, stream)
    {
      var uri := UploadStreamToCAS(stream);
      if uri.None? {
        return Internal;
      }
      var v := RecordVersion(u, file, uri.value);
      Prune(file, folder);
      r := Ok(Uploaded(file, v));
    }

    /** Picks the next version name, inserts the row and moves the file's pointer to it. */
    method RecordVersion(u: nat, file: nat, uri: string) returns (v: nat)
      requires file in store.files
      modifies store
      ensures v == old(store.nextVersion)
      ensures store.Db() == old(store.Db()).(
                files := old(store.files)[file :=
                  old(store.files)[file].(version := Some(v), storagePath := uri, location := SCHEME)],
                versions := old(store.versions)[v :=
                  Version(file, VersionName(NextNumber(old(store.versions), file)), HashColumn(uri), u)],
                nextVersion := v + 1)
    {
      var max := MaxNumber(store.versions, file);
      NextNumberIs(store.versions, file, max);
      v := store.CreateVersion(file, VersionName(max + 1), HashColumn(uri), u);
      store.UpdateFileVersion(file, v, uri, SCHEME);
    }

    /** The retention of the file's folder, if it has one. */
    method Prune(file: nat, folder: nat)
      modifies store
      ensures store.Db() == old(store.Db()).(versions :=
                var n := RetentionOf(old(store.folders), folder);
                if n == 0 then old(store.versions) else Pruned(old(store.versions), file, n))
    {
      var retention := store.GetVersionRetention(folder);
      if retention.Some? && retention.value > 0 {
        store.DeleteOldVersions(file, retention.value);
      }
    }

    method DownloadFile(u: nat, file: nat, v: nat) returns (r: Reply<Bytes>)
      requires Valid()
      ensures r == DownloadStep(store.Db(), local.objects, u, file, v)
    {
      var row := store.GetFile(file);
      if row.None? {
        return NotFound;
      }
      var mask := store.GetUserEffectivePermissions(u, row.value.folder);
      if mask.None? {
        return Internal;
      }
      if !Has(mask.value, PERM_READ) {
        return PermissionDenied;
      }
      var uri := Some(row.value.storagePath);
      if v != 0 {
        uri := FindVersionUri(file, row.value.location, v);
        if uri.None? {
          return NotFound;
        }
      }
      var content := registry.RetrieveByURI(uri.value);
      if content.None? {
        return Internal;
      }
      var chunks := SendInChunks(content.value);
      r := Ok(Concat(chunks));
    }

    /** The search loop over the versions of the file. */
    method FindVersionUri(file: nat, location: string, v: nat) returns (uri: Option<string>)
      ensures uri == if v in VersionsOf(store.versions, file)
                     then Some(UriOf(location, Encode(store.versions[v].hash))) else None
    {
      var todo := VersionsOf(store.versions, file);
      while todo != {}
        invariant todo <= VersionsOf(store.versions, file)
        invariant v !in VersionsOf(store.versions, file) - todo
        decreases |todo|
      {
        var w :| w in todo;
        if w == v {
          return Some(UriOf(location, Encode(store.versions[w].hash)));
        }
        todo := todo - {w};
      }
      uri := None;
    }

    /** The read loop with its 32 KiB buffer; each read returns some part of what is left. */
    method SendInChunks(content: Bytes) returns (sent: seq<Bytes>)
      ensures Concat(sent) == content
      ensures forall i | 0 <= i < |sent| :: 0 < |sent[i]| <= 32 * 1024
    {
      sent := [];
      var total := 0;
      while total < |content|
        invariant total <= |content| && Concat(sent) == content[..total]
        invariant forall i | 0 <= i < |sent| :: 0 < |sent[i]| <= 32 * 1024
      {
        var n :| 0 < n <= |content| - total && n <= 32 * 1024;
        var chunk := content[total..total + n];
        assert Front(sent + [chunk]) == sent && Last(sent + [chunk]) == chunk;
        assert content[..total + n] == content[..total] + chunk;
        sent, total := sent + [chunk], total + n;
      }
      assert content[..total] == content;
    }

    method ModifyFile(u: nat, file: nat, name: Option<string>, folder: Option<nat>, meta: Bytes)
      returns (r: Reply<File>)
      requires Valid()
      modifies store
      ensures (store.Db(), r) == ModifyFileStep(old(store.Db()), u, file, name, folder, meta)
    {
      var row := store.GetFile(file);
      if row.None? {
        return NotFound;
      }
      var mask := store.GetUserEffectivePermissions(u, row.value.folder);
      if mask.None? {
        return Internal;
      }
      if name.Some? || folder.Some? {
        if !Has(mask.value, PERM_RENAME) {
          return PermissionDenied;
        }
      } else if meta != [] {
        if !Has(mask.value, PERM_WRITE) {
          return PermissionDenied;
        }
      }
      r := ApplyUpdates(file, name, folder, meta);
    }

    method ApplyUpdates(file: nat, name: Option<string>, folder: Option<nat>, meta: Bytes) returns (r: Reply<File>)
      requires LiveFile(store.files, file)
      modifies store
      ensures (store.Db(), r) == UpdatesApplied(old(store.Db()), file, name, folder, meta)
    {
      if name.Some? {
        store.RenameFile(file, name.value);
      }
      if folder.Some? {
        var target := store.GetFolder(folder.value);
        if target.None? {
          assert store.files == old(store.files)[file := store.files[file]];
          return NotFound;
        }
        var path := target.value.path + Str(folder.value) + "/";
        store.MoveFile(file, folder.value, path);
      }
      if meta != [] {
        store.UpdateFileMetadata(file, meta);
      }
      assert store.files == old(store.files)[file := store.files[file]];
      var updated := store.GetFile(file);
      if updated.None? {
        return Internal;
      }
      r := Ok(updated.value);
    }

    method SetRetentionPolicy(u: nat, folder: nat, lastN: nat) returns (r: Reply<()>)
      requires Valid()
      modifies store
      ensures (store.Db(), r) == SetRetentionStep(old(store.Db()), u, folder, lastN)
    {
      var mask := store.GetUserEffectivePermissions(u, folder);
      if mask.None? {
        return Internal;
      }
      if !Has(mask.value, PERM_ADMIN) {
        return PermissionDenied;
      }
      store.SetRetentionPolicy(folder, lastN);
      r := Ok(());
    }

    method DeleteFile(u: nat, file: nat, now: nat) returns (r: Reply<()>)
      requires Valid()
      modifies store
      ensures (store.Db(), r) == DeleteFileStep(old(store.Db()), u, file, now)
    {
      var row := store.GetFile(file);
      if row.None? {
        return NotFound;
      }
      var mask := store.GetUserEffectivePermissions(u, row.value.folder);
      if mask.None? {
        return Internal;
      }
      if !Has(mask.value, PERM_DELETE) {
        return PermissionDenied;
      }
      store.SoftDeleteFile(file, now);
      r := Ok(());
    }
  }
}
