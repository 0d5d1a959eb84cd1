/** File names: an upload keeps them unique in each folder, a modification only if nobody has the name. */
module Names {
  import opened Wrappers
  import opened Paths
  import opened Tables
  import opened Permissions
  import opened Delete
  import opened Cas
  import opened FolderServices
  import opened FileServices
  import opened Runs
  import opened RunTheorems
  import opened Replies

  /** No two live files of one folder share a name. */
  ghost predicate NamesUnique(files: Files) {
    forall i, j | LiveFile(files, i) && LiveFile(files, j)
      && files[i].folder == files[j].folder && files[i].name == files[j].name :: i == j
  }

  /** Another live file than i has this name in this folder. */
  ghost predicate TakenByOther(files: Files, i: nat, folder: nat, name: string) {
    exists j :: LiveFile(files, j) && j != i && files[j].folder == folder && files[j].name == name
  }

  /** A modification, refused or not, that gives a file the name of another one in the same folder. */
  ghost predicate Clashes(db: Database, req: Request) {
    && req.ModifyFile?
    && MayModify(db, req.user, req.file, req.newName, req.newFolder, req.meta)
    && TakenByOther(
         db.files, req.file,
         if req.newFolder.Some? && Live(db.folders, req.newFolder.value) then req.newFolder.value
         else db.files[req.file].folder,
         if req.newName.Some? then req.newName.value else db.files[req.file].name)
  }

  lemma RowKeepsNames(files: Files, i: nat, row: File)
    requires NamesUnique(files) && row.deletedAt == None
    ensures NamesUnique(files[i := row]) <==> !TakenByOther(files, i, row.folder, row.name)
  {
    var files' := files[i := row];
    if j :| LiveFile(files, j) && j != i && files[j].folder == row.folder && files[j].name == row.name {
      assert LiveFile(files', j) && LiveFile(files', i);
    }
    if !TakenByOther(files, i, row.folder, row.name) {
      forall k, j | LiveFile(files', k) && LiveFile(files', j)
        && files'[k].folder == files'[j].folder && files'[k].name == files'[j].name
        ensures k == j
      {
        assert k == i || LiveFile(files, k);
        assert j == i || LiveFile(files, j);
      }
    }
  }

  /** Rows that only keep folder and name, or go away, keep names unique. */
  lemma {:induction false} FewerKeepNames(files: Files, files': Files)
    requires NamesUnique(files)
    requires forall i | LiveFile(files', i) ::
               LiveFile(files, i) && files'[i].folder == files[i].folder && files'[i].name == files[i].name
    ensures NamesUnique(files')
  {
  }

  lemma UploadKeepsNames(
    digest: Bytes -> Bytes, db: Database, objects: Objects, u: nat, f: nat, name: string, meta: Bytes, stream: Stream)
    requires NamesUnique(db.files)
    ensures NamesUnique(UploadFileStep(digest, db, objects, u, f, name, meta, stream).0.files)
  {
    RefusedOrAccepted(digest, db, objects, u, f, name, meta, stream);
    if UploadFileStep(digest, db, objects, u, f, name, meta, stream).2.Ok? {
      var row := UploadFileStep(digest, db, objects, u, f, name, meta, stream).0.files[db.nextFile];
      RowKeepsNames(db.files, db.nextFile, row);
    }
  }

  lemma NextUploadKeepsNames(digest: Bytes -> Bytes, db: Database, objects: Objects, u: nat, i: nat, stream: Stream)
    requires NamesUnique(db.files)
    ensures NamesUnique(UploadVersionStep(digest, db, objects, u, i, stream).0.files)
  {
    RefusedOrNext(digest, db, objects, u, i, stream);
    FewerKeepNames(db.files, UploadVersionStep(digest, db, objects, u, i, stream).0.files);
  }

  lemma DeleteFolderKeepsNames(db: Database, u: nat, f: nat, now: nat)
    requires NamesUnique(db.files)
    ensures NamesUnique(DeleteFolderStep(db, u, f, now).0.files)
  {
    if f in db.folders {
      FewerKeepNames(db.files, FilesDeleted(db.folders, db.files, f, now));
    }
  }

  lemma DeleteFileKeepsNames(db: Database, u: nat, i: nat, now: nat)
    requires NamesUnique(db.files)
    ensures NamesUnique(DeleteFileStep(db, u, i, now).0.files)
  {
    if LiveFile(db.files, i) {
      FewerKeepNames(db.files, db.files[i := db.files[i].(deletedAt := Some(now))]);
    }
  }

  lemma OthersKeepFiles(digest: Bytes -> Bytes, w: World, req: Request)
    requires req.CreateFolder? || req.MoveFolder? || req.Grant? || req.SetRetention?
    ensures Apply(digest, w, req).db.files == w.db.files
  {
  }

  lemma ModifyKeepsNamesIff(
    db: Database, u: nat, i: nat, name: Option<string>, folder: Option<nat>, meta: Bytes)
    requires FoldersOk(db) && NamesUnique(db.files)
    ensures NamesUnique(ModifyFileStep(db, u, i, name, folder, meta).0.files)
       <==> !Clashes(db, ModifyFile(u, i, name, folder, meta))
  {
    if MayModify(db, u, i, name, folder, meta) {
      MayModifyApplies(db, u, i, name, folder, meta);
      var files' := UpdatesApplied(db, i, name, folder, meta).0.files;
      assert files' == db.files[i := files'[i]];
      RowKeepsNames(db.files, i, files'[i]);
    } else {
      MayModifyApplies(db, u, i, name, folder, meta);
    }
  }

  lemma MayModifyApplies(
    db: Database, u: nat, i: nat, name: Option<string>, folder: Option<nat>, meta: Bytes)
    requires FoldersOk(db)
    ensures MayModify(db, u, i, name, folder, meta) ==>
              ModifyFileStep(db, u, i, name, folder, meta) == UpdatesApplied(db, i, name, folder, meta)
    ensures !MayModify(db, u, i, name, folder, meta) ==>
              ModifyFileStep(db, u, i, name, folder, meta).0 == db
  {
    if LiveFile(db.files, i) {
      MaskTest(db, u, db.files[i].folder, PERM_RENAME);
      MaskTest(db, u, db.files[i].folder, PERM_WRITE);
      MaskTest(db, u, db.files[i].folder, {});
    }
  }

  /** A request keeps names unique exactly if it is not a modification that takes another file's name. */
  lemma NamesStayUniqueIff(digest: Bytes -> Bytes, w: World, req: Request)
    requires FoldersOk(w.db) && NamesUnique(w.db.files)
    ensures NamesUnique(Apply(digest, w, req).db.files) <==> !Clashes(w.db, req)
  {
    match req
    case UploadFile(u, f, name, meta, stream) => UploadKeepsNames(digest, w.db, w.objects, u, f, name, meta, stream);
    case UploadVersion(u, i, stream) => NextUploadKeepsNames(digest, w.db, w.objects, u, i, stream);
    case ModifyFile(u, i, name, folder, meta) => ModifyKeepsNamesIff(w.db, u, i, name, folder, meta);
    case DeleteFolder(u, f, now) => DeleteFolderKeepsNames(w.db, u, f, now);
    case DeleteFile(u, i, now) => DeleteFileKeepsNames(w.db, u, i, now);
    case _ => OthersKeepFiles(digest, w, req);
  }

  ghost predicate NoClash(digest: Bytes -> Bytes, reqs: seq<Request>) {
    reqs == [] || (NoClash(digest, Front(reqs)) && !Clashes(After(digest, Front(reqs)).db, Last(reqs)))
  }

  /** In every run without such a modification names are unique in each folder. */
  lemma {:induction false} RunKeepsNamesUnique(digest: Bytes -> Bytes, reqs: seq<Request>)
    requires NoClash(digest, reqs)
    ensures NamesUnique(After(digest, reqs).db.files)
    decreases |reqs|
  {
    if reqs != [] {
      RunLast(digest, Seeded(), reqs);
      RunKeepsNamesUnique(digest, Front(reqs));
      AfterInv(digest, Front(reqs));
      NamesStayUniqueIff(digest, After(digest, Front(reqs)), Last(reqs));
    }
  }
}
