/** Which requests succeed in a reachable state, and what the refused ones leave behind. */
module Replies {
  import opened Wrappers
  import opened Paths
  import opened Tables
  import opened Permissions
  import opened Tree
  import opened Access
  import opened Cas
  import opened VersionRows
  import opened FolderServices
  import opened FileServices
  import opened Histories
  import opened Runs
  import opened RunTheorems

  /** The mask that flows down the parent pointers to x contains the target. */
  ghost predicate HasRight(db: Database, u: nat, x: nat, target: Mask) {
    Rooted(db.folders, x) && Has(Eff(db.folders, db.grants, u, x), target)
  }

  /** ... or the Admin bit, which only the folder handlers accept instead. */
  ghost predicate Passes(db: Database, u: nat, x: nat, target: Mask) {
    HasRight(db, u, x, PERM_ADMIN) || HasRight(db, u, x, target)
  }

  /** What a request needs, said about the tree and not about paths. */
  ghost predicate Entitled(db: Database, req: Request) {
    match req
    case CreateFolder(u, _, p, _, _) => Passes(db, u, p, PERM_CREATE_FOLDER)
    case MoveFolder(u, f, q) => Passes(db, u, f, PERM_MOVE_FOLDER) && Passes(db, u, q, PERM_CREATE_FOLDER)
    case DeleteFolder(u, f, _) => Passes(db, u, f, PERM_DELETE_FOLDER)
    case Grant(_, f, _) => f in db.folders
    case UploadFile(u, f, name, _, stream) =>
      HasRight(db, u, f, PERM_CREATE) && !NameTaken(db.files, f, name) && !stream.failed
    case UploadVersion(u, i, stream) =>
      LiveFile(db.files, i) && HasRight(db, u, db.files[i].folder, PERM_WRITE) && !stream.failed
    case ModifyFile(u, i, name, folder, meta) =>
      MayModify(db, u, i, name, folder, meta) && (folder.Some? ==> Live(db.folders, folder.value))
    case SetRetention(u, f, _) => HasRight(db, u, f, PERM_ADMIN)
    case DeleteFile(u, i, _) => LiveFile(db.files, i) && HasRight(db, u, db.files[i].folder, PERM_DELETE)
  }

  ghost predicate MayModify(
    db: Database, u: nat, i: nat, name: Option<string>, folder: Option<nat>, meta: Bytes)
  {
    LiveFile(db.files, i)
    && HasRight(db, u, db.files[i].folder,
             if name.Some? || folder.Some? then PERM_RENAME else if meta != [] then PERM_WRITE else {})
  }

  /** The one refusal that has changed a row: the new name is in place when the target folder is missed. */
  ghost predicate HalfRenamed(db: Database, req: Request) {
    && req.ModifyFile?
    && MayModify(db, req.user, req.file, req.newName, req.newFolder, req.meta)
    && req.newFolder.Some? && !Live(db.folders, req.newFolder.value)
    && req.newName.Some? && req.newName.value != db.files[req.file].name
  }

  /** The handler replies without an error. */
  ghost predicate Answered(digest: Bytes -> Bytes, w: World, req: Request) {
    var db := w.db;
    match req
    case CreateFolder(u, name, p, inherits, n) => CreateFolderStep(db, u, name, p, inherits, n).1.Ok?
    case MoveFolder(u, f, q) => MoveFolderStep(db, u, f, q).1.Ok?
    case DeleteFolder(u, f, now) => DeleteFolderStep(db, u, f, now).1.Ok?
    case Grant(_, f, _) => f in db.folders
    case UploadFile(u, f, name, meta, stream) =>
      UploadFileStep(digest, db, w.objects, u, f, name, meta, stream).2.Ok?
    case UploadVersion(u, i, stream) => UploadVersionStep(digest, db, w.objects, u, i, stream).2.Ok?
    case ModifyFile(u, i, name, folder, meta) => ModifyFileStep(db, u, i, name, folder, meta).1.Ok?
    case SetRetention(u, f, n) => SetRetentionStep(db, u, f, n).1.Ok?
    case DeleteFile(u, i, now) => DeleteFileStep(db, u, i, now).1.Ok?
  }

  // ----- the two permission tests -----

  lemma MaskTest(db: Database, u: nat, x: nat, target: Mask)
    requires Indexed(db.folders)
    ensures var mask := Effective(db.folders, db.grants, u, x);
      && (mask.Some? <==> Rooted(db.folders, x))
      && (mask.Some? && Has(mask.value, target) <==> HasRight(db, u, x, target))
  {
    QueryIsTreeWalk(db.folders, db.grants, u, x);
  }

  lemma FolderTest(db: Database, u: nat, x: nat, target: Mask)
    requires Indexed(db.folders)
    ensures Allowed(db, u, x, target) == Some(true) <==> Passes(db, u, x, target)
    ensures Allowed(db, u, x, target) == Some(true) ==> Live(db.folders, x)
  {
    MaskTest(db, u, x, target);
    MaskTest(db, u, x, PERM_ADMIN);
  }

  // ----- one handler at a time -----

  lemma CreateReply(db: Database, u: nat, name: string, p: nat, inherits: bool, n: nat)
    requires FoldersOk(db)
    ensures var res := CreateFolderStep(db, u, name, p, inherits, n);
      && (res.1.Ok? <==> Passes(db, u, p, PERM_CREATE_FOLDER))
      && (!res.1.Ok? ==> res.0 == db)
  {
    FolderTest(db, u, p, PERM_CREATE_FOLDER);
    if Passes(db, u, p, PERM_CREATE_FOLDER) {
      MaskTest(db, u, p, {});
      ParentReadsTheSame(db.folders, db.grants, db.nextFolder, name, p, inherits, n, u);
    }
  }

  lemma MoveReply(db: Database, u: nat, f: nat, q: nat)
    requires FoldersOk(db)
    ensures var res := MoveFolderStep(db, u, f, q);
      && (res.1.Ok? <==> Passes(db, u, f, PERM_MOVE_FOLDER) && Passes(db, u, q, PERM_CREATE_FOLDER))
      && (!res.1.Ok? ==> res.0 == db)
  {
    FolderTest(db, u, f, PERM_MOVE_FOLDER);
    FolderTest(db, u, q, PERM_CREATE_FOLDER);
  }

  lemma DeleteReply(db: Database, u: nat, f: nat, now: nat)
    requires FoldersOk(db)
    ensures var res := DeleteFolderStep(db, u, f, now);
      && (res.1.Ok? <==> Passes(db, u, f, PERM_DELETE_FOLDER))
      && (!res.1.Ok? ==> res.0 == db)
  {
    FolderTest(db, u, f, PERM_DELETE_FOLDER);
  }

  lemma UploadReply(
    digest: Bytes -> Bytes, db: Database, objects: Objects,
    u: nat, f: nat, name: string, meta: Bytes, stream: Stream)
    requires FoldersOk(db)
    ensures var res := UploadFileStep(digest, db, objects, u, f, name, meta, stream);
      && (res.2.Ok? <==> HasRight(db, u, f, PERM_CREATE) && !NameTaken(db.files, f, name) && !stream.failed)
      && (!res.2.Ok? ==> res.0 == db && res.1 == objects)
  {
    MaskTest(db, u, f, PERM_CREATE);
  }

  lemma UploadVersionReply(digest: Bytes -> Bytes, db: Database, objects: Objects, u: nat, i: nat, stream: Stream)
    requires FoldersOk(db)
    ensures var res := UploadVersionStep(digest, db, objects, u, i, stream);
      && (res.2.Ok? <==>
            LiveFile(db.files, i) && HasRight(db, u, db.files[i].folder, PERM_WRITE) && !stream.failed)
      && (!res.2.Ok? ==> res.0 == db && res.1 == objects)
  {
    if LiveFile(db.files, i) {
      MaskTest(db, u, db.files[i].folder, PERM_WRITE);
    }
  }

  lemma ModifyReply(db: Database, u: nat, i: nat, name: Option<string>, folder: Option<nat>, meta: Bytes)
    requires FoldersOk(db)
    ensures var res := ModifyFileStep(db, u, i, name, folder, meta);
      var req := ModifyFile(u, i, name, folder, meta);
      && (res.1.Ok? <==> Entitled(db, req))
      && (!res.1.Ok? ==> (res.0 != db <==> HalfRenamed(db, req)))
  {
    if LiveFile(db.files, i) {
      MaskTest(db, u, db.files[i].folder, PERM_RENAME);
      MaskTest(db, u, db.files[i].folder, PERM_WRITE);
      MaskTest(db, u, db.files[i].folder, {});
      HalfApplied(db, i, name, folder, meta);
    }
  }

  /** The rename is written before the target folder is looked up. */
  lemma HalfApplied(db: Database, i: nat, name: Option<string>, folder: Option<nat>, meta: Bytes)
    requires LiveFile(db.files, i)
    ensures var res := UpdatesApplied(db, i, name, folder, meta);
      && (res.1.Ok? <==> folder.None? || Live(db.folders, folder.value))
      && (!res.1.Ok? ==> (res.0 == db <==> name.None? || name.value == db.files[i].name))
  {
  }

  lemma RetentionReply(db: Database, u: nat, f: nat, n: nat)
    requires FoldersOk(db)
    ensures var res := SetRetentionStep(db, u, f, n);
      && (res.1.Ok? <==> HasRight(db, u, f, PERM_ADMIN))
      && (!res.1.Ok? ==> res.0 == db)
  {
    MaskTest(db, u, f, PERM_ADMIN);
  }

  lemma DeleteFileReply(db: Database, u: nat, i: nat, now: nat)
    requires FoldersOk(db)
    ensures var res := DeleteFileStep(db, u, i, now);
      && (res.1.Ok? <==> LiveFile(db.files, i) && HasRight(db, u, db.files[i].folder, PERM_DELETE))
      && (!res.1.Ok? ==> res.0 == db)
  {
    if LiveFile(db.files, i) {
      MaskTest(db, u, db.files[i].folder, PERM_DELETE);
    }
  }

  // ----- which error -----

  /** The reply without its value. */
  function Code<T>(r: Reply<T>): Reply<()> {
    match r
    case Ok(_) => Ok(())
    case PermissionDenied => PermissionDenied
    case NotFound => NotFound
    case AlreadyExists => AlreadyExists
    case InvalidArgument => InvalidArgument
    case Unauthenticated => Unauthenticated
    case Internal => Internal
  }

  /** The reply of a permission test on a folder, and what follows if it is passed. */
  ghost function Tested(db: Database, x: nat, passed: bool, next: Reply<()>): Reply<()> {
    if !Rooted(db.folders, x) then Internal else if !passed then PermissionDenied else next
  }

  /** The reply of a request, said about the tree. */
  ghost function Expected(db: Database, req: Request): Reply<()> {
    match req
    case CreateFolder(u, _, p, _, _) => Tested(db, p, Passes(db, u, p, PERM_CREATE_FOLDER), Ok(()))
    case MoveFolder(u, f, q) =>
      Tested(db, f, Passes(db, u, f, PERM_MOVE_FOLDER),
             Tested(db, q, Passes(db, u, q, PERM_CREATE_FOLDER), Ok(())))
    case DeleteFolder(u, f, _) => Tested(db, f, Passes(db, u, f, PERM_DELETE_FOLDER), Ok(()))
    case Grant(_, f, _) => if f in db.folders then Ok(()) else Internal
    case UploadFile(u, f, name, _, stream) =>
      Tested(db, f, HasRight(db, u, f, PERM_CREATE),
             if NameTaken(db.files, f, name) then AlreadyExists else if stream.failed then Internal else Ok(()))
    case UploadVersion(u, i, stream) =>
      if !LiveFile(db.files, i) then NotFound
      else Tested(db, db.files[i].folder, HasRight(db, u, db.files[i].folder, PERM_WRITE),
                  if stream.failed then Internal else Ok(()))
    case ModifyFile(u, i, name, folder, meta) =>
      if !LiveFile(db.files, i) then NotFound
      else Tested(db, db.files[i].folder, MayModify(db, u, i, name, folder, meta),
                  if folder.Some? && !Live(db.folders, folder.value) then NotFound else Ok(()))
    case SetRetention(u, f, _) => Tested(db, f, HasRight(db, u, f, PERM_ADMIN), Ok(()))
    case DeleteFile(u, i, _) =>
      if !LiveFile(db.files, i) then NotFound
      else Tested(db, db.files[i].folder, HasRight(db, u, db.files[i].folder, PERM_DELETE), Ok(()))
  }

  ghost function ReplyCode(digest: Bytes -> Bytes, w: World, req: Request): Reply<()> {
    var db := w.db;
    match req
    case CreateFolder(u, name, p, inherits, n) => Code(CreateFolderStep(db, u, name, p, inherits, n).1)
    case MoveFolder(u, f, q) => Code(MoveFolderStep(db, u, f, q).1)
    case DeleteFolder(u, f, now) => Code(DeleteFolderStep(db, u, f, now).1)
    case Grant(_, f, _) => if f in db.folders then Ok(()) else Internal
    case UploadFile(u, f, name, meta, stream) =>
      Code(UploadFileStep(digest, db, w.objects, u, f, name, meta, stream).2)
    case UploadVersion(u, i, stream) => Code(UploadVersionStep(digest, db, w.objects, u, i, stream).2)
    case ModifyFile(u, i, name, folder, meta) => Code(ModifyFileStep(db, u, i, name, folder, meta).1)
    case SetRetention(u, f, n) => Code(SetRetentionStep(db, u, f, n).1)
    case DeleteFile(u, i, now) => Code(DeleteFileStep(db, u, i, now).1)
  }

  lemma FolderTestCode(db: Database, u: nat, x: nat, target: Mask)
    requires Indexed(db.folders)
    ensures Allowed(db, u, x, target) == None <==> !Rooted(db.folders, x)
    ensures Allowed(db, u, x, target) == Some(true) <==> Passes(db, u, x, target)
    ensures Rooted(db.folders, x) ==> Live(db.folders, x)
  {
    MaskTest(db, u, x, target);
    FolderTest(db, u, x, target);
  }

  lemma FolderCodes(digest: Bytes -> Bytes, w: World, req: Request)
    requires FoldersOk(w.db) && (req.CreateFolder? || req.MoveFolder? || req.DeleteFolder?)
    ensures ReplyCode(digest, w, req) == Expected(w.db, req)
  {
    match req
    case CreateFolder(u, name, p, inherits, n) =>
      FolderTestCode(w.db, u, p, PERM_CREATE_FOLDER);
      CreateReply(w.db, u, name, p, inherits, n);
    case MoveFolder(u, f, q) =>
      FolderTestCode(w.db, u, f, PERM_MOVE_FOLDER);
      FolderTestCode(w.db, u, q, PERM_CREATE_FOLDER);
    case DeleteFolder(u, f, now) => FolderTestCode(w.db, u, f, PERM_DELETE_FOLDER);
  }

  lemma UploadCodes(digest: Bytes -> Bytes, w: World, req: Request)
    requires FoldersOk(w.db) && (req.UploadFile? || req.UploadVersion?)
    ensures ReplyCode(digest, w, req) == Expected(w.db, req)
  {
    match req
    case UploadFile(u, f, name, meta, stream) => MaskTest(w.db, u, f, PERM_CREATE);
    case UploadVersion(u, i, stream) =>
      if LiveFile(w.db.files, i) {
        MaskTest(w.db, u, w.db.files[i].folder, PERM_WRITE);
      }
  }

  lemma FileCodes(digest: Bytes -> Bytes, w: World, req: Request)
    requires FoldersOk(w.db) && (req.ModifyFile? || req.SetRetention? || req.DeleteFile?)
    ensures ReplyCode(digest, w, req) == Expected(w.db, req)
  {
    match req
    case ModifyFile(u, i, name, folder, meta) =>
      if LiveFile(w.db.files, i) {
        MaskTest(w.db, u, w.db.files[i].folder, PERM_RENAME);
        MaskTest(w.db, u, w.db.files[i].folder, PERM_WRITE);
        MaskTest(w.db, u, w.db.files[i].folder, {});
      }
    case SetRetention(u, f, n) => MaskTest(w.db, u, f, PERM_ADMIN);
    case DeleteFile(u, i, now) =>
      if LiveFile(w.db.files, i) {
        MaskTest(w.db, u, w.db.files[i].folder, PERM_DELETE);
      }
  }

  /** In every run the reply, error code included, is the one the tree calls for. */
  lemma RepliesByTree(digest: Bytes -> Bytes, reqs: seq<Request>, req: Request)
    ensures ReplyCode(digest, After(digest, reqs), req) == Expected(After(digest, reqs).db, req)
  {
    var w := After(digest, reqs);
    AfterInv(digest, reqs);
    match req
    case CreateFolder(_, _, _, _, _) => FolderCodes(digest, w, req);
    case MoveFolder(_, _, _) => FolderCodes(digest, w, req);
    case DeleteFolder(_, _, _) => FolderCodes(digest, w, req);
    case Grant(_, _, _) =>
    case UploadFile(_, _, _, _, _) => UploadCodes(digest, w, req);
    case UploadVersion(_, _, _) => UploadCodes(digest, w, req);
    case ModifyFile(_, _, _, _, _) => FileCodes(digest, w, req);
    case SetRetention(_, _, _) => FileCodes(digest, w, req);
    case DeleteFile(_, _, _) => FileCodes(digest, w, req);
  }

  // ----- every run -----

  lemma ReplyIsRight(digest: Bytes -> Bytes, w: World, req: Request)
    requires FoldersOk(w.db)
    ensures Answered(digest, w, req) <==> Entitled(w.db, req)
    ensures !Answered(digest, w, req) ==> (Apply(digest, w, req) != w <==> HalfRenamed(w.db, req))
  {
    match req
    case CreateFolder(u, name, p, inherits, n) => CreateReply(w.db, u, name, p, inherits, n);
    case MoveFolder(u, f, q) => MoveReply(w.db, u, f, q);
    case DeleteFolder(u, f, now) => DeleteReply(w.db, u, f, now);
    case Grant(_, _, _) =>
    case UploadFile(u, f, name, meta, stream) => UploadReply(digest, w.db, w.objects, u, f, name, meta, stream);
    case UploadVersion(u, i, stream) => UploadVersionReply(digest, w.db, w.objects, u, i, stream);
    case ModifyFile(u, i, name, folder, meta) => ModifyReply(w.db, u, i, name, folder, meta);
    case SetRetention(u, f, n) => RetentionReply(w.db, u, f, n);
    case DeleteFile(u, i, now) => DeleteFileReply(w.db, u, i, now);
  }

  /** In every run, a request succeeds exactly if the rights that flow down the tree allow it. */
  lemma RightsDecide(digest: Bytes -> Bytes, reqs: seq<Request>, req: Request)
    ensures Answered(digest, After(digest, reqs), req) <==> Entitled(After(digest, reqs).db, req)
  {
    AfterInv(digest, reqs);
    ReplyIsRight(digest, After(digest, reqs), req);
  }

  /**
   In every run, a refused request leaves tables, objects and history as they were, except exactly for
   a rename that comes with a missing target folder.
   */
  lemma RefusalLeavesNoTrace(digest: Bytes -> Bytes, reqs: seq<Request>, req: Request)
    requires !Answered(digest, After(digest, reqs), req)
    ensures Run(digest, After(digest, reqs), [req]) == After(digest, reqs) <==>
              !HalfRenamed(After(digest, reqs).db, req)
  {
    var w := After(digest, reqs);
    AfterInv(digest, reqs);
    RunLast(digest, w, [req]);
    assert Front([req]) == [];
    ReplyIsRight(digest, w, req);
  }

  /** The reply of a download, said about the tree and the stored versions. */
  ghost function ExpectedDownload(db: Database, u: nat, i: nat, v: nat): Reply<()> {
    if !LiveFile(db.files, i) then NotFound
    else Tested(db, db.files[i].folder, HasRight(db, u, db.files[i].folder, PERM_READ),
                if v == 0 || v in VersionsOf(db.versions, i) then Ok(()) else NotFound)
  }

  /** A download succeeds exactly for readers of the folder and for versions that are stored. */
  lemma DownloadServes(digest: Bytes -> Bytes, reqs: seq<Request>, u: nat, i: nat, v: nat)
    requires CollisionFree(digest, ContentsOf(reqs))
    ensures var w := After(digest, reqs);
      && (DownloadStep(w.db, w.objects, u, i, v).Ok? <==>
            && LiveFile(w.db.files, i)
            && HasRight(w.db, u, w.db.files[i].folder, PERM_READ)
            && (v == 0 || v in VersionsOf(w.db.versions, i)))
      && Code(DownloadStep(w.db, w.objects, u, i, v)) == ExpectedDownload(w.db, u, i, v)
  {
    var w := After(digest, reqs);
    AfterInv(digest, reqs);
    DownloadNeeds(w.db, w.objects, u, i, v);
    if LiveFile(w.db.files, i) && HasRight(w.db, u, w.db.files[i].folder, PERM_READ) {
      MaskTest(w.db, u, w.db.files[i].folder, PERM_READ);
      if v == 0 || v in VersionsOf(w.db.versions, i) {
        StoredServes(digest, reqs, u, i, v);
      }
    }
  }

  lemma DownloadNeeds(db: Database, objects: Objects, u: nat, i: nat, v: nat)
    requires FoldersOk(db)
    ensures DownloadStep(db, objects, u, i, v).Ok? ==>
      LiveFile(db.files, i) && HasRight(db, u, db.files[i].folder, PERM_READ)
      && (v == 0 || v in VersionsOf(db.versions, i))
    ensures Code(DownloadStep(db, objects, u, i, v)) == ExpectedDownload(db, u, i, v)
      || ExpectedDownload(db, u, i, v) == Ok(())
  {
    if LiveFile(db.files, i) {
      MaskTest(db, u, db.files[i].folder, PERM_READ);
    }
  }

  lemma StoredServes(digest: Bytes -> Bytes, reqs: seq<Request>, u: nat, i: nat, v: nat)
    requires CollisionFree(digest, ContentsOf(reqs))
    requires var w := After(digest, reqs);
      && LiveFile(w.db.files, i)
      && (v == 0 || v in VersionsOf(w.db.versions, i))
      && (var mask := Effective(w.db.folders, w.db.grants, u, w.db.files[i].folder);
          mask.Some? && Has(mask.value, PERM_READ))
    ensures var w := After(digest, reqs); DownloadStep(w.db, w.objects, u, i, v).Ok?
  {
    var w := After(digest, reqs);
    AfterInv(digest, reqs);
    assert RecordedAt(digest, w.db, w.log, i);
    LatestUpload(digest, w, i);
    if v == 0 {
      LatestIsCurrent(digest, reqs, u, i);
    } else {
      var j := PositionOf(digest, w.db.versions, w.db.nextVersion, w.log[i], i, w.db.files[i], v);
      DownloadReturnsUpload(digest, reqs, u, i, j);
    }
  }
}
