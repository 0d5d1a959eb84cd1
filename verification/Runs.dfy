/**
 All runs of the folder and file handlers.  A request is one handler call as one atomic step; Grant is
 the environment writing a permission row.  Nothing is assumed about the requests of a run.
 */
module Runs {
  import opened Wrappers
  import opened Paths
  import opened Tables
  import opened Permissions
  import opened Tree
  import opened Move
  import opened Delete
  import opened Parents
  import opened Access
  import opened Cas
  import opened VersionRows
  import opened SqliteManagers
  import opened FolderServices
  import opened FileServices
  import opened Histories

  datatype Request =
    | CreateFolder(user: nat, name: string, parent: nat, inherits: bool, retention: nat)
    | MoveFolder(user: nat, folder: nat, target: nat)
    | DeleteFolder(user: nat, folder: nat, now: nat)
    | Grant(user: nat, folder: nat, mask: Mask)
    | UploadFile(user: nat, folder: nat, name: string, meta: Bytes, stream: Stream)
    | UploadVersion(user: nat, file: nat, stream: Stream)
    | ModifyFile(user: nat, file: nat, newName: Option<string>, newFolder: Option<nat>, meta: Bytes)
    | SetRetention(user: nat, folder: nat, lastN: nat)
    | DeleteFile(user: nat, file: nat, now: nat)

  /** The tables, the object store, and the history of successful uploads of every file. */
  datatype World = World(db: Database, objects: Objects, log: map<nat, History>)

  /** A fresh server: the root folder and nothing else. */
  function Seeded(): World {
    World(Database(map[ROOT := ROOT_FOLDER], map[], map[], map[], 2, 1, 1), map[], map[])
  }

  ghost function Apply(digest: Bytes -> Bytes, w: World, req: Request): World {
    var db := w.db;
    match req
    case CreateFolder(u, name, p, inherits, n) => w.(db := CreateFolderStep(db, u, name, p, inherits, n).0)
    case MoveFolder(u, f, q) => w.(db := MoveFolderStep(db, u, f, q).0)
    case DeleteFolder(u, f, now) => w.(db := DeleteFolderStep(db, u, f, now).0)
    case Grant(u, f, mask) =>
      if f in db.folders then w.(db := db.(grants := Granted(db.grants, u, f, mask))) else w
    case UploadFile(u, f, name, meta, stream) =>
      AfterUpload(w, UploadFileStep(digest, db, w.objects, u, f, name, meta, stream), stream)
    case UploadVersion(u, i, stream) =>
      AfterNextUpload(w, UploadVersionStep(digest, db, w.objects, u, i, stream), stream)
    case ModifyFile(u, i, name, folder, meta) => w.(db := ModifyFileStep(db, u, i, name, folder, meta).0)
    case SetRetention(u, f, n) => w.(db := SetRetentionStep(db, u, f, n).0)
    case DeleteFile(u, i, now) => w.(db := DeleteFileStep(db, u, i, now).0)
  }

  function LogFirst(log: map<nat, History>, up: Uploaded, stream: Stream): map<nat, History> {
    log[up.file := History([Upload(up.version, Concat(stream.chunks))], 1)]
  }

  /** The world after a first upload with this outcome. */
  function AfterUpload(w: World, res: (Database, Objects, Reply<Uploaded>), stream: Stream): World {
    World(res.0, res.1, if res.2.Ok? then LogFirst(w.log, res.2.value, stream) else w.log)
  }

  function LogNext(w: World, up: Uploaded, stream: Stream): map<nat, History> {
    if up.file in w.log && up.file in w.db.files then
      w.log[up.file := Extended(w.log[up.file], Upload(up.version, Concat(stream.chunks)),
                                RetentionOf(w.db.folders, w.db.files[up.file].folder))]
    else w.log
  }

  function AfterNextUpload(w: World, res: (Database, Objects, Reply<Uploaded>), stream: Stream): World {
    World(res.0, res.1, if res.2.Ok? then LogNext(w, res.2.value, stream) else w.log)
  }

  ghost function Iterate(step: (World, Request) -> World, w: World, reqs: seq<Request>): World {
    if reqs == [] then w else step(Iterate(step, w, Front(reqs)), Last(reqs))
  }

  lemma {:induction false} IterateSplit(step: (World, Request) -> World, w: World, a: seq<Request>, b: seq<Request>)
    ensures Iterate(step, w, a + b) == Iterate(step, Iterate(step, w, a), b)
    decreases |b|
  {
    if b == [] {
      assert a + b == a;
    } else {
      IterateSplit(step, w, a, Front(b));
      assert Front(a + b) == a + Front(b);
    }
  }

  ghost function Run(digest: Bytes -> Bytes, w: World, reqs: seq<Request>): World {
    Iterate((v, req) => Apply(digest, v, req), w, reqs)
  }

  lemma RunLast(digest: Bytes -> Bytes, w: World, reqs: seq<Request>)
    requires reqs != []
    ensures Run(digest, w, reqs) == Apply(digest, Run(digest, w, Front(reqs)), Last(reqs))
  {
  }

  // ----- the invariant of every run -----

  ghost predicate FoldersOk(db: Database) {
    && Indexed(db.folders)
    && Parented(db.folders)
    && (forall x | x in db.folders :: x < db.nextFolder)
    && (forall k | k in db.grants :: k.1 in db.folders)
  }

  /** Ids are below the counters, and version rows belong to files. */
  ghost predicate RowsOk(db: Database) {
    && db.nextVersion >= 1
    && (forall v | v in db.versions :: v < db.nextVersion && db.versions[v].file in db.files)
    && (forall i | i in db.files :: i < db.nextFile)
  }

  ghost predicate RecordedAt(digest: Bytes -> Bytes, db: Database, log: map<nat, History>, i: nat) {
    i in log && i in db.files && Recorded(digest, db.versions, db.nextVersion, log[i], i, db.files[i])
  }

  ghost predicate FilesOk(digest: Bytes -> Bytes, db: Database, log: map<nat, History>) {
    && log.Keys == db.files.Keys
    && RowsOk(db)
    && forall i | i in db.files :: RecordedAt(digest, db, log, i)
  }

  ghost predicate Present(digest: Bytes -> Bytes, objects: Objects, h: History) {
    forall up | up in h.uploads :: ObjectKey(digest, up.content) in objects
  }

  ghost predicate ObjectsOk(digest: Bytes -> Bytes, objects: Objects, log: map<nat, History>) {
    && Addressed(objects, digest)
    && forall i | i in log :: Present(digest, objects, log[i])
  }

  ghost predicate Inv(digest: Bytes -> Bytes, w: World) {
    && FoldersOk(w.db)
    && Housed(w.db.folders, w.db.files)
    && FilesOk(digest, w.db, w.log)
    && ObjectsOk(digest, w.objects, w.log)
  }

  /** A user who passes a permission test on x has reached it through the index. */
  lemma AllowedIsRooted(db: Database, u: nat, x: nat, target: Mask)
    requires Indexed(db.folders) && Allowed(db, u, x, target).Some?
    ensures Rooted(db.folders, x)
  {
    QueryIsTreeWalk(db.folders, db.grants, u, x);
  }

  /** Rows that keep their path, parent and liveness keep the whole index as it is. */
  lemma {:induction false} IndexedFrame(fs: Folders, fs': Folders)
    requires fs'.Keys == fs.Keys && Indexed(fs)
    requires forall y | y in fs ::
               fs'[y].path == fs[y].path && fs'[y].parent == fs[y].parent && fs'[y].deletedAt == fs[y].deletedAt
    ensures Indexed(fs')
    ensures forall y :: Rooted(fs', y) <==> Rooted(fs, y)
  {
    forall ids: seq<nat>, y
      ensures Placed(fs', ids, y) <==> Placed(fs, ids, y)
    {
      if Placed(fs, ids, y) {
        PlacedInTable(fs, ids, y);
        PlacedFrame(fs, fs', ids, y);
      }
      if Placed(fs', ids, y) {
        PlacedInTable(fs', ids, y);
        PlacedFrame(fs', fs, ids, y);
      }
    }
    forall y | Live(fs', y)
      ensures RowOk(fs', y)
    {
      assert RowOk(fs, y);
      if i, j :| LoopAt(fs, Chain(fs, y), i, j) {
        assert LoopAt(fs', Chain(fs', y), i, j);
      }
    }
  }

  // ----- what a step may do to the tables, without the checks that led to it -----

  /** The index stays sound, no folder disappears, and no folder that was cut off comes back. */
  ghost predicate IndexStep(db: Database, db': Database) {
    && FoldersOk(db')
    && db.folders.Keys <= db'.folders.Keys
    && (forall x | x in db.folders && !Rooted(db.folders, x) :: !Rooted(db'.folders, x))
  }

  /** No column that the version history depends on is written. */
  ghost predicate RecordsFrame(db: Database, db': Database) {
    && db'.versions == db.versions && db'.nextVersion == db.nextVersion && db'.nextFile == db.nextFile
    && db'.files.Keys == db.files.Keys
    && forall i | i in db.files ::
         && db'.files[i].version == db.files[i].version
         && db'.files[i].storagePath == db.files[i].storagePath
         && db'.files[i].location == db.files[i].location
  }

  /** A step that writes folders, grants or row columns only. */
  ghost predicate TableStep(db: Database, db': Database) {
    IndexStep(db, db') && Housed(db'.folders, db'.files) && RecordsFrame(db, db')
  }

  lemma TableStepKeepsInv(digest: Bytes -> Bytes, w: World, db': Database)
    requires Inv(digest, w) && TableStep(w.db, db')
    ensures Inv(digest, w.(db := db'))
  {
    var db := w.db;
    forall i | i in db.files
      ensures RecordedAt(digest, db', w.log, i)
    {
      assert RecordedAt(digest, db, w.log, i);
      RecordedFrame(digest, db.versions, db.versions, db.nextVersion, db.nextVersion,
                    w.log[i], i, db.files[i], db'.files[i]);
    }
  }

  lemma SameIndex(db: Database, db': Database)
    requires FoldersOk(db)
    requires db'.folders == db.folders && db'.nextFolder == db.nextFolder && db'.grants == db.grants
    ensures IndexStep(db, db')
  {
  }

  lemma {:induction false} LiveFrame(fs: Folders, fs': Folders, files: Files)
    requires Housed(fs, files) && forall x | Live(fs, x) :: Live(fs', x)
    ensures Housed(fs', files)
  {
  }

  lemma {:induction false} CreatedStep(db: Database, db': Database, name: string, p: nat, inherits: bool, n: nat)
    requires FoldersOk(db) && Housed(db.folders, db.files) && Rooted(db.folders, p)
    requires db'.folders == Created(db.folders, db.nextFolder, name, p, ChildPath(db.folders, p), inherits, n)
    requires db' == db.(folders := db'.folders, nextFolder := db.nextFolder + 1, grants := db'.grants)
    requires forall k | k in db'.grants :: k in db.grants || k.1 == db.nextFolder
    ensures TableStep(db, db')
  {
    CreateKeepsIndexed(db.folders, db.nextFolder, name, p, inherits, n);
    CreateKeepsParented(db.folders, db.nextFolder, name, p, inherits, n);
    LiveFrame(db.folders, db'.folders, db.files);
  }

  lemma MovedStep(db: Database, f: nat, q: nat)
    requires FoldersOk(db) && Housed(db.folders, db.files) && Rooted(db.folders, f) && Rooted(db.folders, q)
    ensures TableStep(db, db.(folders := MovedUnder(db.folders, f, q)))
  {
    MoveKeepsIndexedAlways(db.folders, f, q);
    MoveKeepsParented(db.folders, f, q);
    LiveFrame(db.folders, MovedUnder(db.folders, f, q), db.files);
  }

  /** Moves into the own subtree included. */
  lemma MoveKeepsIndexedAlways(fs: Folders, f: nat, q: nat)
    requires Indexed(fs) && Rooted(fs, f) && Rooted(fs, q)
    ensures Indexed(MovedUnder(fs, f, q)) && MovedUnder(fs, f, q).Keys == fs.Keys
    ensures forall x | !Rooted(fs, x) :: !Rooted(MovedUnder(fs, f, q), x)
  {
    if Cyclic(fs, f, q) {
      CyclicMoveKeepsIndexed(fs, f, q);
      forall x | !Rooted(fs, x)
        ensures !Rooted(MovedUnder(fs, f, q), x)
      {
        RootedAfterCyclicMove(fs, f, q, x);
      }
    } else {
      MoveKeepsIndexed(fs, f, q);
    }
  }

  lemma DeletedStep(db: Database, f: nat, now: nat)
    requires FoldersOk(db) && Housed(db.folders, db.files) && Rooted(db.folders, f)
    ensures var fs', files' := Deleted(db.folders, f, now), FilesDeleted(db.folders, db.files, f, now);
      TableStep(db, db.(folders := fs', files := files'))
  {
    DeleteKeepsIndexed(db.folders, f, now);
    DeleteKeepsParented(db.folders, f, now);
    DeleteKeepsHoused(db.folders, db.files, f, now);
  }

  lemma RetentionStep(db: Database, f: nat, n: nat)
    requires FoldersOk(db) && Housed(db.folders, db.files) && f in db.folders
    ensures TableStep(db, db.(folders := db.folders[f := db.folders[f].(retention := n)]))
  {
    var fs' := db.folders[f := db.folders[f].(retention := n)];
    IndexedFrame(db.folders, fs');
    ParentedFrame(db.folders, fs');
    LiveFrame(db.folders, fs', db.files);
  }

  /** One file row changes, but not its pointer; it stays in its folder or enters a live one. */
  lemma RowStep(db: Database, i: nat, row: File)
    requires FoldersOk(db) && Housed(db.folders, db.files) && i in db.files
    requires row.version == db.files[i].version && row.storagePath == db.files[i].storagePath
    requires row.location == db.files[i].location
    requires row.deletedAt == None ==> Live(db.folders, row.folder)
    ensures TableStep(db, db.(files := db.files[i := row]))
  {
  }

  // ----- the handlers -----

  ghost predicate StepOk(digest: Bytes -> Bytes, w: World, w': World) {
    Inv(digest, w') && IndexStep(w.db, w'.db)
  }

  lemma Refused(digest: Bytes -> Bytes, w: World)
    requires Inv(digest, w)
    ensures StepOk(digest, w, w)
  {
  }

  lemma CreateFolderKeepsInv(
    digest: Bytes -> Bytes, w: World, u: nat, name: string, p: nat, inherits: bool, n: nat)
    requires Inv(digest, w)
    ensures StepOk(digest, w, w.(db := CreateFolderStep(w.db, u, name, p, inherits, n).0))
  {
    var db' := CreateFolderStep(w.db, u, name, p, inherits, n).0;
    if Allowed(w.db, u, p, PERM_CREATE_FOLDER) == Some(true) {
      AllowedIsRooted(w.db, u, p, PERM_CREATE_FOLDER);
      CreatedStep(w.db, db', name, p, inherits, n);
      TableStepKeepsInv(digest, w, db');
    }
  }

  lemma MoveFolderKeepsInv(digest: Bytes -> Bytes, w: World, u: nat, f: nat, q: nat)
    requires Inv(digest, w)
    ensures StepOk(digest, w, w.(db := MoveFolderStep(w.db, u, f, q).0))
  {
    if MoveFolderStep(w.db, u, f, q).1.Ok? {
      AllowedIsRooted(w.db, u, f, PERM_MOVE_FOLDER);
      AllowedIsRooted(w.db, u, q, PERM_CREATE_FOLDER);
      MovedStep(w.db, f, q);
      TableStepKeepsInv(digest, w, w.db.(folders := MovedUnder(w.db.folders, f, q)));
    }
  }

  lemma DeleteFolderKeepsInv(digest: Bytes -> Bytes, w: World, u: nat, f: nat, now: nat)
    requires Inv(digest, w)
    ensures StepOk(digest, w, w.(db := DeleteFolderStep(w.db, u, f, now).0))
  {
    if DeleteFolderStep(w.db, u, f, now).1.Ok? {
      AllowedIsRooted(w.db, u, f, PERM_DELETE_FOLDER);
      DeletedStep(w.db, f, now);
      TableStepKeepsInv(digest, w, DeleteFolderStep(w.db, u, f, now).0);
    }
  }

  lemma GrantKeepsInv(digest: Bytes -> Bytes, w: World, u: nat, f: nat, mask: Mask)
    requires Inv(digest, w) && f in w.db.folders
    ensures StepOk(digest, w, w.(db := w.db.(grants := Granted(w.db.grants, u, f, mask))))
  {
  }

  lemma SetRetentionKeepsInv(digest: Bytes -> Bytes, w: World, u: nat, f: nat, n: nat)
    requires Inv(digest, w)
    ensures StepOk(digest, w, w.(db := SetRetentionStep(w.db, u, f, n).0))
  {
    var db' := SetRetentionStep(w.db, u, f, n).0;
    if f in w.db.folders && SetRetentionStep(w.db, u, f, n).1.Ok? {
      RetentionStep(w.db, f, n);
      TableStepKeepsInv(digest, w, db');
    }
  }

  lemma RowKeepsInv(digest: Bytes -> Bytes, w: World, i: nat, row: File)
    requires Inv(digest, w) && i in w.db.files
    requires row.version == w.db.files[i].version && row.storagePath == w.db.files[i].storagePath
    requires row.location == w.db.files[i].location
    requires row.deletedAt == None ==> Live(w.db.folders, row.folder)
    ensures StepOk(digest, w, w.(db := w.db.(files := w.db.files[i := row])))
  {
    RowStep(w.db, i, row);
    TableStepKeepsInv(digest, w, w.db.(files := w.db.files[i := row]));
  }

  /** The updates write one row, and move it only into a live folder. */
  lemma UpdatesWriteRow(db: Database, i: nat, name: Option<string>, folder: Option<nat>, meta: Bytes)
    requires LiveFile(db.files, i) && Live(db.folders, db.files[i].folder)
    ensures var db' := UpdatesApplied(db, i, name, folder, meta).0;
      && i in db'.files && db' == db.(files := db.files[i := db'.files[i]])
      && db'.files[i].version == db.files[i].version && db'.files[i].storagePath == db.files[i].storagePath
      && db'.files[i].location == db.files[i].location && Live(db.folders, db'.files[i].folder)
  {
  }

  lemma UpdatesKeepInv(
    digest: Bytes -> Bytes, w: World, i: nat, db': Database)
    requires Inv(digest, w) && LiveFile(w.db.files, i)
    requires i in db'.files && db' == w.db.(files := w.db.files[i := db'.files[i]])
    requires db'.files[i].version == w.db.files[i].version && db'.files[i].storagePath == w.db.files[i].storagePath
    requires db'.files[i].location == w.db.files[i].location && Live(w.db.folders, db'.files[i].folder)
    ensures StepOk(digest, w, w.(db := db'))
  {
    RowKeepsInv(digest, w, i, db'.files[i]);
  }

  lemma ModifyFileKeepsInv(
    digest: Bytes -> Bytes, w: World, u: nat, i: nat, name: Option<string>, folder: Option<nat>, meta: Bytes)
    requires Inv(digest, w)
    ensures StepOk(digest, w, w.(db := ModifyFileStep(w.db, u, i, name, folder, meta).0))
  {
    var db' := ModifyFileStep(w.db, u, i, name, folder, meta).0;
    if db' == w.db {
      Refused(digest, w);
    } else {
      assert Live(w.db.folders, w.db.files[i].folder);
      UpdatesWriteRow(w.db, i, name, folder, meta);
      UpdatesKeepInv(digest, w, i, db');
    }
  }

  lemma DeleteFileKeepsInv(digest: Bytes -> Bytes, w: World, u: nat, i: nat, now: nat)
    requires Inv(digest, w)
    ensures StepOk(digest, w, w.(db := DeleteFileStep(w.db, u, i, now).0))
  {
    var db' := DeleteFileStep(w.db, u, i, now).0;
    if db' == w.db {
      Refused(digest, w);
    } else {
      RowKeepsInv(digest, w, i, w.db.files[i].(deletedAt := Some(now)));
    }
  }

  // ----- uploads -----

  /** Storing content and logging uploads of it keeps the object store in step with the log. */
  lemma {:induction false} StoreKeepsObjects(
    digest: Bytes -> Bytes, objects: Objects, log: map<nat, History>, log': map<nat, History>, content: Bytes)
    requires ObjectsOk(digest, objects, log)
    requires forall i, up | i in log' && up in log'[i].uploads ::
               up.content == content || (i in log && up in log[i].uploads)
    ensures ObjectsOk(digest, Stored(objects, digest, content), log')
  {
  }

  /** Files whose version rows and pointer an upload does not touch stay recorded. */
  lemma {:induction false} StillRecorded(
    digest: Bytes -> Bytes, db: Database, db': Database, log: map<nat, History>, log': map<nat, History>, j: nat)
    requires RecordedAt(digest, db, log, j) && j in log' && log'[j] == log[j]
    requires j in db'.files && db'.files[j] == db.files[j] && db.nextVersion <= db'.nextVersion
    requires VersionsOf(db'.versions, j) == VersionsOf(db.versions, j)
    requires forall v | v in VersionsOf(db.versions, j) :: db'.versions[v] == db.versions[v]
    ensures RecordedAt(digest, db', log', j)
  {
    RecordedFrame(digest, db.versions, db'.versions, db.nextVersion, db'.nextVersion,
                  log[j], j, db.files[j], db'.files[j]);
  }

  /** The tables after an accepted first upload of file i with version v. */
  function FirstTables(db: Database, row: File, version: Version): Database {
    db.(files := db.files[db.nextFile := row], nextFile := db.nextFile + 1,
        versions := db.versions[db.nextVersion := version], nextVersion := db.nextVersion + 1)
  }

  lemma FirstUploadKeepsRecords(
    digest: Bytes -> Bytes, db: Database, log: map<nat, History>, u: nat, row: File, content: Bytes)
    requires FilesOk(digest, db, log)
    requires row.version == Some(db.nextVersion) && row.location == SCHEME
    requires row.storagePath == LocatorOf(digest, content)
    ensures FilesOk(
      digest, FirstTables(db, row, Version(db.nextFile, VersionName(1), HashColumn(LocatorOf(digest, content)), u)),
      log[db.nextFile := History([Upload(db.nextVersion, content)], 1)])
  {
    var version := Version(db.nextFile, VersionName(1), HashColumn(LocatorOf(digest, content)), u);
    var log' := log[db.nextFile := History([Upload(db.nextVersion, content)], 1)];
    FirstUploadRecorded(digest, db, log', u, row, content);
    forall j | j in db.files
      ensures RecordedAt(digest, FirstTables(db, row, version), log', j)
    {
      FirstUploadKeepsOther(digest, db, log, log', row, version, j);
    }
    FirstUploadRows(db, row, version);
  }

  lemma FirstUploadRecorded(
    digest: Bytes -> Bytes, db: Database, log': map<nat, History>, u: nat, row: File, content: Bytes)
    requires RowsOk(db)
    requires db.nextFile in log' && log'[db.nextFile] == History([Upload(db.nextVersion, content)], 1)
    requires row.version == Some(db.nextVersion) && row.location == SCHEME
    requires row.storagePath == LocatorOf(digest, content)
    ensures RecordedAt(
      digest, FirstTables(db, row, Version(db.nextFile, VersionName(1), HashColumn(LocatorOf(digest, content)), u)),
      log', db.nextFile)
  {
    assert VersionsOf(db.versions, db.nextFile) == {};
    RecordFirst(digest, db.versions, db.nextVersion, db.nextFile, row, u, content);
  }

  lemma FirstUploadRows(db: Database, row: File, version: Version)
    requires RowsOk(db) && version.file == db.nextFile
    ensures RowsOk(FirstTables(db, row, version))
  {
  }

  lemma FirstUploadKeepsOther(
    digest: Bytes -> Bytes, db: Database, log: map<nat, History>, log': map<nat, History>, row: File,
    version: Version, j: nat)
    requires RowsOk(db) && RecordedAt(digest, db, log, j) && version.file == db.nextFile
    requires j in log' && log'[j] == log[j]
    ensures RecordedAt(digest, FirstTables(db, row, version), log', j)
  {
    assert VersionsOf(db.versions[db.nextVersion := version], j) == VersionsOf(db.versions, j);
    StillRecorded(digest, db, FirstTables(db, row, version), log, log', j);
  }

  lemma FirstUploadKeepsHoused(db: Database, row: File, version: Version)
    requires Housed(db.folders, db.files) && Live(db.folders, row.folder)
    ensures Housed(db.folders, FirstTables(db, row, version).files)
  {
  }

  lemma FirstUploadKeepsInv(digest: Bytes -> Bytes, w: World, u: nat, row: File, content: Bytes)
    requires Inv(digest, w) && Live(w.db.folders, row.folder)
    requires row.version == Some(w.db.nextVersion) && row.location == SCHEME
    requires row.storagePath == LocatorOf(digest, content)
    ensures var version := Version(w.db.nextFile, VersionName(1), HashColumn(LocatorOf(digest, content)), u);
      StepOk(digest, w, World(
        FirstTables(w.db, row, version), Stored(w.objects, digest, content),
        w.log[w.db.nextFile := History([Upload(w.db.nextVersion, content)], 1)]))
  {
    var version := Version(w.db.nextFile, VersionName(1), HashColumn(LocatorOf(digest, content)), u);
    FirstUploadKeepsRecords(digest, w.db, w.log, u, row, content);
    FirstUploadKeepsHoused(w.db, row, version);
    StoreKeepsObjects(
      digest, w.objects, w.log, w.log[w.db.nextFile := History([Upload(w.db.nextVersion, content)], 1)], content);
    SameIndex(w.db, FirstTables(w.db, row, version));
  }

  lemma AcceptedKeepsInv(
    digest: Bytes -> Bytes, w: World, u: nat, f: nat, name: string, meta: Bytes, stream: Stream)
    requires Inv(digest, w)
    ensures StepOk(
      digest, w, AfterUpload(w, UploadAccepted(digest, w.db, w.objects, u, f, name, meta, stream), stream))
  {
    var content := Concat(stream.chunks);
    var (db', objects', r) := UploadAccepted(digest, w.db, w.objects, u, f, name, meta, stream);
    if r.Ok? {
      FirstUploadKeepsInv(digest, w, u, db'.files[w.db.nextFile], content);
    } else {
      Refused(digest, w);
      StoreKeepsObjects(digest, w.objects, w.log, w.log, content);
    }
  }

  /** An upload is refused without effect, or accepted. */
  lemma RefusedOrAccepted(
    digest: Bytes -> Bytes, db: Database, objects: Objects, u: nat, f: nat, name: string, meta: Bytes, stream: Stream)
    ensures var res := UploadFileStep(digest, db, objects, u, f, name, meta, stream);
      || (res.0 == db && res.1 == objects && !res.2.Ok?)
      || res == UploadAccepted(digest, db, objects, u, f, name, meta, stream)
  {
  }

  lemma UploadFileKeepsInv(
    digest: Bytes -> Bytes, w: World, u: nat, f: nat, name: string, meta: Bytes, stream: Stream,
    res: (Database, Objects, Reply<Uploaded>))
    requires Inv(digest, w)
    requires (res.0 == w.db && res.1 == w.objects && !res.2.Ok?)
          || res == UploadAccepted(digest, w.db, w.objects, u, f, name, meta, stream)
    ensures StepOk(digest, w, AfterUpload(w, res, stream))
  {
    if res.0 == w.db && res.1 == w.objects && !res.2.Ok? {
      Refused(digest, w);
    } else {
      AcceptedKeepsInv(digest, w, u, f, name, meta, stream);
    }
  }

  lemma NextUploadKeepsOthers(vs: Versions, v: nat, row: Version, n: nat, i: nat)
    requires row.file != i && v !in vs
    ensures VersionsOf(VersionsAfterUpload(vs, v, row, n), i) == VersionsOf(vs, i)
    ensures forall x | x in VersionsOf(vs, i) :: VersionsAfterUpload(vs, v, row, n)[x] == vs[x]
  {
  }

  lemma NextUploadKeepsRecords(
    digest: Bytes -> Bytes, db: Database, log: map<nat, History>, i: nat, version: Version, content: Bytes, n: nat)
    requires FilesOk(digest, db, log) && i in db.files
    requires version.file == i && version.name == VersionName(NextNumber(db.versions, i))
    requires version.hash == digest(content)
    ensures FilesOk(digest, NextTables(db, i, LocatorOf(digest, content), version, n),
                    log[i := Extended(log[i], Upload(db.nextVersion, content), n)])
  {
    var uri, log' := LocatorOf(digest, content), log[i := Extended(log[i], Upload(db.nextVersion, content), n)];
    NextUploadRecorded(digest, db, log, log', i, version, content, n);
    forall j | j in db.files && j != i
      ensures RecordedAt(digest, NextTables(db, i, uri, version, n), log', j)
    {
      NextUploadKeepsOther(digest, db, log, log', i, uri, version, n, j);
    }
    NextUploadRows(db, i, uri, version, n);
  }

  lemma NextUploadRecorded(
    digest: Bytes -> Bytes, db: Database, log: map<nat, History>, log': map<nat, History>, i: nat,
    version: Version, content: Bytes, n: nat)
    requires RowsOk(db) && RecordedAt(digest, db, log, i)
    requires version.file == i && version.name == VersionName(NextNumber(db.versions, i))
    requires version.hash == digest(content)
    requires i in log' && log'[i] == Extended(log[i], Upload(db.nextVersion, content), n)
    ensures RecordedAt(digest, NextTables(db, i, LocatorOf(digest, content), version, n), log', i)
  {
    NextNumberCounts(digest, db.versions, db.nextVersion, log[i], i, db.files[i]);
    RecordNext(digest, db.versions, db.nextVersion, log[i], i, db.files[i],
               NextTables(db, i, LocatorOf(digest, content), version, n).files[i], version, content, n);
  }

  lemma NextUploadKeepsOther(
    digest: Bytes -> Bytes, db: Database, log: map<nat, History>, log': map<nat, History>, i: nat, uri: string,
    version: Version, n: nat, j: nat)
    requires RowsOk(db) && RecordedAt(digest, db, log, j) && version.file == i && i in db.files && j != i
    requires j in log' && log'[j] == log[j]
    ensures RecordedAt(digest, NextTables(db, i, uri, version, n), log', j)
  {
    NextUploadKeepsOthers(db.versions, db.nextVersion, version, n, j);
    StillRecorded(digest, db, NextTables(db, i, uri, version, n), log, log', j);
  }

  lemma NextUploadRows(db: Database, i: nat, uri: string, version: Version, n: nat)
    requires RowsOk(db) && i in db.files && version.file == i
    ensures RowsOk(NextTables(db, i, uri, version, n))
  {
  }

  lemma NextUploadKeepsInv(
    digest: Bytes -> Bytes, w: World, i: nat, version: Version, content: Bytes, n: nat)
    requires Inv(digest, w) && i in w.db.files
    requires version.file == i && version.name == VersionName(NextNumber(w.db.versions, i))
    requires version.hash == digest(content)
    ensures StepOk(digest, w, World(
      NextTables(w.db, i, LocatorOf(digest, content), version, n), Stored(w.objects, digest, content),
      w.log[i := Extended(w.log[i], Upload(w.db.nextVersion, content), n)]))
  {
    var db' := NextTables(w.db, i, LocatorOf(digest, content), version, n);
    NextUploadKeepsRecords(digest, w.db, w.log, i, version, content, n);
    NextUploadKeepsObjects(digest, w.objects, w.log, i, Upload(w.db.nextVersion, content), n);
    SameIndex(w.db, db');
    PointerKeepsHoused(w.db.folders, w.db.files, db'.files, i);
  }

  lemma NextUploadKeepsObjects(
    digest: Bytes -> Bytes, objects: Objects, log: map<nat, History>, i: nat, up: Upload, n: nat)
    requires ObjectsOk(digest, objects, log) && i in log
    ensures ObjectsOk(digest, Stored(objects, digest, up.content), log[i := Extended(log[i], up, n)])
  {
  }

  lemma PointerKeepsHoused(fs: Folders, files: Files, files': Files, i: nat)
    requires Housed(fs, files) && i in files && i in files'
    requires files' == files[i := files'[i]]
    requires files'[i].folder == files[i].folder && files'[i].deletedAt == files[i].deletedAt
    ensures Housed(fs, files')
  {
  }

  /** A further upload is refused without effect, or writes exactly these tables. */
  lemma RefusedOrNext(digest: Bytes -> Bytes, db: Database, objects: Objects, u: nat, i: nat, stream: Stream)
    ensures var res := UploadVersionStep(digest, db, objects, u, i, stream);
      var content := Concat(stream.chunks);
      || (res.0 == db && res.1 == objects && !res.2.Ok?)
      || (LiveFile(db.files, i)
          && res == (
            NextTables(
              db, i, LocatorOf(digest, content),
              Version(i, VersionName(NextNumber(db.versions, i)), HashColumn(LocatorOf(digest, content)), u),
              RetentionOf(db.folders, db.files[i].folder)),
            Stored(objects, digest, content), Ok(Uploaded(i, db.nextVersion))))
  {
  }

  lemma UploadVersionKeepsInv(
    digest: Bytes -> Bytes, w: World, u: nat, i: nat, stream: Stream, res: (Database, Objects, Reply<Uploaded>))
    requires Inv(digest, w) && LiveFile(w.db.files, i)
    requires var content := Concat(stream.chunks);
      res == (
        NextTables(
          w.db, i, LocatorOf(digest, content),
          Version(i, VersionName(NextNumber(w.db.versions, i)), HashColumn(LocatorOf(digest, content)), u),
          RetentionOf(w.db.folders, w.db.files[i].folder)),
        Stored(w.objects, digest, content), Ok(Uploaded(i, w.db.nextVersion)))
    ensures StepOk(digest, w, AfterNextUpload(w, res, stream))
  {
    var content := Concat(stream.chunks);
    var version := Version(i, VersionName(NextNumber(w.db.versions, i)), HashColumn(LocatorOf(digest, content)), u);
    HashOfLocator(digest, content);
    NextUploadKeepsInv(digest, w, i, version, content, RetentionOf(w.db.folders, w.db.files[i].folder));
  }

  // ----- runs -----

  lemma ApplyKeepsInv(digest: Bytes -> Bytes, w: World, req: Request)
    requires Inv(digest, w)
    ensures StepOk(digest, w, Apply(digest, w, req))
  {
    match req
    case CreateFolder(u, name, p, inherits, n) => CreateFolderKeepsInv(digest, w, u, name, p, inherits, n);
    case MoveFolder(u, f, q) => MoveFolderKeepsInv(digest, w, u, f, q);
    case DeleteFolder(u, f, now) => DeleteFolderKeepsInv(digest, w, u, f, now);
    case Grant(u, f, mask) =>
      if f in w.db.folders {
        GrantKeepsInv(digest, w, u, f, mask);
      } else {
        Refused(digest, w);
      }
    case UploadFile(u, f, name, meta, stream) =>
      RefusedOrAccepted(digest, w.db, w.objects, u, f, name, meta, stream);
      UploadFileKeepsInv(digest, w, u, f, name, meta, stream,
                         UploadFileStep(digest, w.db, w.objects, u, f, name, meta, stream));
    case UploadVersion(u, i, stream) =>
      var res := UploadVersionStep(digest, w.db, w.objects, u, i, stream);
      RefusedOrNext(digest, w.db, w.objects, u, i, stream);
      if res.2.Ok? {
        UploadVersionKeepsInv(digest, w, u, i, stream, res);
      } else {
        Refused(digest, w);
      }
    case ModifyFile(u, i, name, folder, meta) => ModifyFileKeepsInv(digest, w, u, i, name, folder, meta);
    case SetRetention(u, f, n) => SetRetentionKeepsInv(digest, w, u, f, n);
    case DeleteFile(u, i, now) => DeleteFileKeepsInv(digest, w, u, i, now);
  }

  lemma SeededInv(digest: Bytes -> Bytes)
    ensures Inv(digest, Seeded())
    ensures Rooted(Seeded().db.folders, ROOT)
  {
  }

  lemma {:induction false} RunKeepsInv(digest: Bytes -> Bytes, w: World, reqs: seq<Request>)
    requires Inv(digest, w)
    ensures Inv(digest, Run(digest, w, reqs))
    decreases |reqs|
  {
    if reqs != [] {
      RunLast(digest, w, reqs);
      RunKeepsInv(digest, w, Front(reqs));
      ApplyKeepsInv(digest, Run(digest, w, Front(reqs)), Last(reqs));
    }
  }
}
