/** Concrete runs on a fresh server that reach what the code gets wrong. */
module Scenarios {
  import opened Wrappers
  import opened Paths
  import opened Tables
  import opened Permissions
  import opened Tree
  import opened Move
  import opened Access
  import opened Cas
  import opened FolderServices
  import opened FileServices
  import opened Runs
  import opened RunTheorems
  import opened Replies
  import opened Effects
  import opened Names
  import Readers

  /** What user 1 gets at the root. */
  const RIGHTS: Mask := PERM_ADMIN + PERM_CREATE + PERM_RENAME

  function Setup(): seq<Request> { [Grant(1, ROOT, RIGHTS)] }

  function NewFolder(name: string): Request { CreateFolder(1, name, ROOT, true, 0) }

  function NewFile(folder: nat, name: string): Request { UploadFile(1, folder, name, [], Stream([], false)) }

  lemma SetupGrants(digest: Bytes -> Bytes)
    ensures var w := After(digest, Setup());
      && w == Seeded().(db := Seeded().db.(grants := map[(1, ROOT) := RIGHTS]))
      && HasRight(w.db, 1, ROOT, RIGHTS)
  {
    AfterLast(digest, [], Grant(1, ROOT, RIGHTS));
    assert Setup() == [] + [Grant(1, ROOT, RIGHTS)];
    RootGrant(After(digest, Setup()), RIGHTS);
  }

  /** The granted rights hold at the root. */
  lemma RootGrant(w: World, mask: Mask)
    requires w == Seeded().(db := Seeded().db.(grants := map[(1, ROOT) := mask]))
    ensures Rooted(w.db.folders, ROOT) && Eff(w.db.folders, w.db.grants, 1, ROOT) == mask
  {
  }

  /** A new inheriting folder at the root comes with the same rights, and takes none away. */
  lemma FolderAdded(digest: Bytes -> Bytes, w: World, name: string)
    requires Inv(digest, w) && HasRight(w.db, 1, ROOT, RIGHTS)
    ensures var db, db' := w.db, Apply(digest, w, NewFolder(name)).db;
      && db' == WithFolder(db, name)
      && HasRight(db', 1, db.nextFolder, RIGHTS)
      && forall y | y in db.folders && HasRight(db, 1, y, RIGHTS) :: HasRight(db', 1, y, RIGHTS)
  {
    FolderShape(w.db, name);
    CreateFolderKeepsInv(digest, w, 1, name, ROOT, true, 0);
    FolderRights(w.db, name);
  }

  function WithFolder(db: Database, name: string): Database
    requires ROOT in db.folders
  {
    var n := db.nextFolder;
    db.(folders := Created(db.folders, n, name, ROOT, ChildPath(db.folders, ROOT), true, 0), nextFolder := n + 1)
  }

  lemma FolderShape(db: Database, name: string)
    requires FoldersOk(db) && HasRight(db, 1, ROOT, RIGHTS)
    ensures CreateFolderStep(db, 1, name, ROOT, true, 0).0 == WithFolder(db, name)
  {
    FolderTest(db, 1, ROOT, PERM_CREATE_FOLDER);
  }

  lemma FolderRights(db: Database, name: string)
    requires FoldersOk(db) && HasRight(db, 1, ROOT, RIGHTS) && FoldersOk(WithFolder(db, name))
    ensures HasRight(WithFolder(db, name), 1, db.nextFolder, RIGHTS)
    ensures forall y | y in db.folders && HasRight(db, 1, y, RIGHTS) :: HasRight(WithFolder(db, name), 1, y, RIGHTS)
  {
    var db' := WithFolder(db, name);
    CreateSnapshotsAccess(db.folders, db.grants, db.nextFolder, name, ROOT, true, 0, 1, 1);
    MaskTest(db', 1, db.nextFolder, RIGHTS);
    forall y | y in db.folders && HasRight(db, 1, y, RIGHTS)
      ensures HasRight(db', 1, y, RIGHTS)
    {
      CreateKeepsAccess(db.folders, db.grants, db.nextFolder, name, ROOT, true, 0, 1, 1, y);
      MaskTest(db, 1, y, RIGHTS);
      MaskTest(db', 1, y, RIGHTS);
    }
  }

  /** db' is db with one more live file i. */
  ghost predicate WithFile(db: Database, db': Database, i: nat, folder: nat, name: string) {
    && db'.folders == db.folders && db'.grants == db.grants && db'.nextFile == i + 1
    && i in db'.files && db'.files == db.files[i := db'.files[i]]
    && db'.files[i].name == name && db'.files[i].folder == folder && db'.files[i].deletedAt == None
    && folder in db.folders && db'.files[i].path == ChildPath(db.folders, folder)
  }

  lemma FileShape(digest: Bytes -> Bytes, db: Database, objects: Objects, folder: nat, name: string)
    requires FoldersOk(db) && HasRight(db, 1, folder, RIGHTS) && !NameTaken(db.files, folder, name)
    ensures WithFile(
      db, UploadFileStep(digest, db, objects, 1, folder, name, [], Stream([], false)).0, db.nextFile, folder, name)
  {
    MaskTest(db, 1, folder, PERM_CREATE);
  }

  lemma FileApplied(digest: Bytes -> Bytes, w: World, folder: nat, name: string)
    requires FoldersOk(w.db) && HasRight(w.db, 1, folder, RIGHTS) && !NameTaken(w.db.files, folder, name)
    ensures WithFile(w.db, Apply(digest, w, NewFile(folder, name)).db, w.db.nextFile, folder, name)
  {
    FileShape(digest, w.db, w.objects, folder, name);
  }

  lemma FileAdded(digest: Bytes -> Bytes, reqs: seq<Request>, folder: nat, name: string)
    requires var db := After(digest, reqs).db;
      HasRight(db, 1, folder, RIGHTS) && !NameTaken(db.files, folder, name)
    ensures var db := After(digest, reqs).db;
      WithFile(db, After(digest, reqs + [NewFile(folder, name)]).db, db.nextFile, folder, name)
  {
    AfterInv(digest, reqs);
    FileApplied(digest, After(digest, reqs), folder, name);
    AfterLast(digest, reqs, NewFile(folder, name));
  }

  lemma WithFileKeepsRights(db: Database, db': Database, i: nat, folder: nat, name: string, x: nat)
    requires WithFile(db, db', i, folder, name) && HasRight(db, 1, x, RIGHTS)
    ensures HasRight(db', 1, x, RIGHTS)
  {
  }

  // ----- a move into the own subtree -----

  /** The root can be moved under itself, and then no user gets an answer on it, or on anything. */
  lemma MovedRootIsLocked(digest: Bytes -> Bytes, u: nat, x: nat)
    ensures Answered(digest, After(digest, Setup()), MoveFolder(1, ROOT, ROOT))
    ensures var db := After(digest, Setup() + [MoveFolder(1, ROOT, ROOT)]).db;
      ROOT in db.folders && Effective(db.folders, db.grants, u, x) == None
  {
    var w, move := After(digest, Setup()), MoveFolder(1, ROOT, ROOT);
    SetupGrants(digest);
    AfterInv(digest, Setup());
    ReplyIsRight(digest, w, move);
    AfterLast(digest, Setup(), move);
    CyclicMoveLocksSubtree(w.db.folders, ROOT, ROOT, w.db.grants, u, [], ROOT);
  }

  // ----- a move that leaves a file path behind -----

  function TwoFolders(): seq<Request> { Setup() + [NewFolder("a")] + [NewFolder("b")] }

  /** A folder that inherits from the root. */
  ghost predicate UnderRoot(fs: Folders, x: nat) {
    && ROOT in fs && fs[ROOT].parent == None
    && x in fs && fs[x].parent == Some(ROOT) && fs[x].inherits
  }

  lemma TwoFoldersAdded(digest: Bytes -> Bytes)
    ensures var db := After(digest, TwoFolders()).db;
      && db.files == map[] && db.nextFile == 1
      && 2 in db.folders && 3 in db.folders && db.folders[2].path == db.folders[3].path
      && HasRight(db, 1, 2, RIGHTS) && HasRight(db, 1, 3, RIGHTS)
      && db.grants == map[(1, ROOT) := RIGHTS] && UnderRoot(db.folders, 2) && UnderRoot(db.folders, 3)
  {
    SetupGrants(digest);
    AfterInv(digest, Setup());
    FolderAdded(digest, After(digest, Setup()), "a");
    AfterLast(digest, Setup(), NewFolder("a"));
    AfterInv(digest, Setup() + [NewFolder("a")]);
    FolderAdded(digest, After(digest, Setup() + [NewFolder("a")]), "b");
    AfterLast(digest, Setup() + [NewFolder("a")], NewFolder("b"));
  }

  /** A file uploaded into folder 2 keeps the path of folder 2 as it was before the move under folder 3. */
  lemma MovedFolderLeavesFilePath(digest: Bytes -> Bytes)
    ensures var reqs, move := TwoFolders() + [NewFile(2, "x")], MoveFolder(1, 2, 3);
      var db, db' := After(digest, reqs).db, After(digest, reqs + [move]).db;
      && Answered(digest, After(digest, reqs), move)
      && LiveFile(db.files, 1) && db.files[1].folder == 2 && db.files[1].path == ChildPath(db.folders, 2)
      && LiveFile(db'.files, 1) && db'.files[1].folder == 2 && 2 in db'.folders
      && db'.files[1].path != ChildPath(db'.folders, 2)
  {
    var reqs, move := TwoFolders() + [NewFile(2, "x")], MoveFolder(1, 2, 3);
    FileInFolder(digest);
    AfterInv(digest, reqs);
    StaleAfterMove(After(digest, reqs).db);
    AfterLast(digest, reqs, move);
  }

  lemma FileInFolder(digest: Bytes -> Bytes)
    ensures var db := After(digest, TwoFolders() + [NewFile(2, "x")]).db;
      && HasRight(db, 1, 2, RIGHTS) && HasRight(db, 1, 3, RIGHTS)
      && db.folders[2].path == db.folders[3].path && db.files.Keys == {1}
      && LiveFile(db.files, 1) && db.files[1].folder == 2 && db.files[1].path == ChildPath(db.folders, 2)
      && db.grants == map[(1, ROOT) := RIGHTS] && UnderRoot(db.folders, 2) && UnderRoot(db.folders, 3)
  {
    var db, db' := After(digest, TwoFolders()).db, After(digest, TwoFolders() + [NewFile(2, "x")]).db;
    TwoFoldersAdded(digest);
    FileAdded(digest, TwoFolders(), 2, "x");
    WithFileKeepsRights(db, db', 1, 2, "x", 2);
    WithFileKeepsRights(db, db', 1, 2, "x", 3);
  }

  lemma StaleAfterMove(db: Database)
    requires FoldersOk(db) && HasRight(db, 1, 2, RIGHTS) && HasRight(db, 1, 3, RIGHTS)
    requires db.folders[2].path == db.folders[3].path && db.files.Keys == {1}
    requires LiveFile(db.files, 1) && db.files[1].folder == 2 && db.files[1].path == ChildPath(db.folders, 2)
    ensures var (db', reply) := MoveFolderStep(db, 1, 2, 3);
      && reply.Ok? && db'.files == db.files
      && 2 in db'.folders && db'.files[1].path != ChildPath(db'.folders, 2)
  {
    MoveReply(db, 1, 2, 3);
    MoveShape(db, 1, 2, 3);
    LongerPath(db.folders, 2, 3);
    MoveLeavesFilePathsBehind(db.folders, db.files, 2, 3, [], 1);
  }

  lemma LongerPath(fs: Folders, f: nat, q: nat)
    requires f in fs && q in fs && fs[f].path == fs[q].path
    ensures ChildPath(fs, q) != fs[f].path
  {
    assert |ChildPath(fs, q)| > |fs[q].path|;
  }

  // ----- a file move that opens the file -----

  /** User 2 may rename in folder 2, where the file is, and read in folder 3. */
  function TwoUsers(): seq<Request> {
    TwoFolders() + [NewFile(2, "x")] + [Grant(2, 2, PERM_RENAME)] + [Grant(2, 3, PERM_READ)]
  }

  /** The effective mask one level below the root. */
  lemma MaskUnderRoot(fs: Folders, grants: Grants, u: nat, x: nat)
    requires Rooted(fs, x) && UnderRoot(fs, x)
    ensures Eff(fs, grants, u, x) == GrantOf(grants, u, ROOT) + GrantOf(grants, u, x)
  {
    ParentIds(fs, x);
    assert Eff(fs, grants, u, ROOT) == GrantOf(grants, u, ROOT);
  }

  lemma TwoUsersGranted(digest: Bytes -> Bytes)
    ensures var db := After(digest, TwoUsers()).db;
      && LiveFile(db.files, 1) && db.files[1].folder == 2
      && UnderRoot(db.folders, 2) && UnderRoot(db.folders, 3)
      && Rooted(db.folders, 2) && Rooted(db.folders, 3)
      && db.grants == map[(1, ROOT) := RIGHTS, (2, 2) := PERM_RENAME, (2, 3) := PERM_READ]
  {
    var reqs := TwoFolders() + [NewFile(2, "x")];
    FileInFolder(digest);
    AfterLast(digest, reqs, Grant(2, 2, PERM_RENAME));
    AfterLast(digest, reqs + [Grant(2, 2, PERM_RENAME)], Grant(2, 3, PERM_READ));
  }

  /** Nothing but one upload in these contents. */
  ghost predicate AtMost(reqs: seq<Request>, content: Bytes) { ContentsOf(reqs) <= {content} }

  lemma SentLast(reqs: seq<Request>, req: Request, content: Bytes)
    requires AtMost(reqs, content) && Sent(req) <= {content}
    ensures AtMost(reqs + [req], content)
  {
    assert Front(reqs + [req]) == reqs;
  }

  lemma SentByFolders()
    ensures AtMost(TwoFolders(), Concat([]))
  {
    SentLast([], Setup()[0], Concat([]));
    assert [] + [Setup()[0]] == Setup();
    SentLast(Setup(), NewFolder("a"), Concat([]));
    SentLast(Setup() + [NewFolder("a")], NewFolder("b"), Concat([]));
  }

  lemma OneContent(digest: Bytes -> Bytes)
    ensures CollisionFree(digest, ContentsOf(TwoUsers()))
  {
    var reqs := TwoFolders() + [NewFile(2, "x")];
    SentByFolders();
    SentLast(TwoFolders(), NewFile(2, "x"), Concat([]));
    SentLast(reqs, Grant(2, 2, PERM_RENAME), Concat([]));
    SentLast(reqs + [Grant(2, 2, PERM_RENAME)], Grant(2, 3, PERM_READ), Concat([]));
  }

  /** User 2 cannot download the file, moves it to folder 3, and can. */
  lemma MoveOpensFile(digest: Bytes -> Bytes)
    ensures var w, w' := After(digest, TwoUsers()), After(digest, TwoUsers() + [Readers.Move(2, 1, 3)]);
      && Answered(digest, w, Readers.Move(2, 1, 3))
      && !DownloadStep(w.db, w.objects, 2, 1, 0).Ok?
      && DownloadStep(w'.db, w'.objects, 2, 1, 0).Ok?
  {
    var db := After(digest, TwoUsers()).db;
    TwoUsersGranted(digest);
    OneContent(digest);
    MaskUnderRoot(db.folders, db.grants, 2, 2);
    MaskUnderRoot(db.folders, db.grants, 2, 3);
    Readers.MoveOpensFileIff(digest, TwoUsers(), 2, 1, 3);
  }

  // ----- a grant that takes a right away -----

  function MayRead(mask: Mask): seq<Request> { TwoFolders() + [NewFile(2, "x")] + [Grant(2, 2, mask)] }

  lemma ReadGranted(digest: Bytes -> Bytes, mask: Mask)
    ensures var db := After(digest, MayRead(mask)).db;
      && LiveFile(db.files, 1) && db.files[1].folder == 2
      && UnderRoot(db.folders, 2) && Rooted(db.folders, 2)
      && db.grants == map[(1, ROOT) := RIGHTS, (2, 2) := mask]
      && CollisionFree(digest, ContentsOf(MayRead(mask)))
  {
    var reqs := TwoFolders() + [NewFile(2, "x")];
    FileInFolder(digest);
    AfterLast(digest, reqs, Grant(2, 2, mask));
    SentByFolders();
    SentLast(TwoFolders(), NewFile(2, "x"), Concat([]));
    SentLast(reqs, Grant(2, 2, mask), Concat([]));
  }

  lemma ReaderByMask(digest: Bytes -> Bytes, mask: Mask)
    ensures var w := After(digest, MayRead(mask));
      && (DownloadStep(w.db, w.objects, 2, 1, 0).Ok? <==> Has(mask, PERM_READ))
      && (DownloadStep(w.db, w.objects, 2, 1, 0) == PermissionDenied <==> !Has(mask, PERM_READ))
  {
    var db := After(digest, MayRead(mask)).db;
    ReadGranted(digest, mask);
    MaskUnderRoot(db.folders, db.grants, 2, 2);
    DownloadServes(digest, MayRead(mask), 2, 1, 0);
  }

  /** User 2 may read, is granted nothing instead, and may not read any more. */
  lemma SmallerMaskEndsReading(digest: Bytes -> Bytes)
    ensures var w, w' := After(digest, MayRead(PERM_READ)), After(digest, MayRead(PERM_READ) + [Grant(2, 2, {})]);
      && DownloadStep(w.db, w.objects, 2, 1, 0).Ok?
      && DownloadStep(w'.db, w'.objects, 2, 1, 0) == PermissionDenied
  {
    ReaderByMask(digest, PERM_READ);
    ReaderByMask(digest, {});
    LastGrantCounts(digest, TwoFolders() + [NewFile(2, "x")], 2, 2, PERM_READ, {});
  }

  // ----- a refused request that renames -----

  /** A rename to "b" that also names a folder which does not exist is refused, and the file is called "b". */
  lemma RefusedRenameSticks(digest: Bytes -> Bytes)
    ensures var w, req := After(digest, OneFile()), ModifyFile(1, 1, Some("b"), Some(9), []);
      && !Answered(digest, w, req)
      && 1 in w.db.files && w.db.files[1].name == "a"
      && 1 in Apply(digest, w, req).db.files && Apply(digest, w, req).db.files[1].name == "b"
  {
    OneFileAdded(digest);
    AfterInv(digest, OneFile());
    RefusedRename(digest, After(digest, OneFile()));
  }

  lemma RefusedRename(digest: Bytes -> Bytes, w: World)
    requires FoldersOk(w.db) && LiveFile(w.db.files, 1) && w.db.files[1].folder == ROOT
    requires HasRight(w.db, 1, ROOT, RIGHTS) && 9 !in w.db.folders
    ensures var req := ModifyFile(1, 1, Some("b"), Some(9), []);
      && !Answered(digest, w, req)
      && 1 in Apply(digest, w, req).db.files && Apply(digest, w, req).db.files[1].name == "b"
  {
    MaskTest(w.db, 1, ROOT, PERM_RENAME);
  }

  function OneFile(): seq<Request> { Setup() + [NewFile(ROOT, "a")] }

  lemma OneFileAdded(digest: Bytes -> Bytes)
    ensures var db := After(digest, OneFile()).db;
      && db.files.Keys == {1} && db.nextFile == 2 && LiveFile(db.files, 1)
      && db.files[1].folder == ROOT && db.files[1].name == "a"
      && db.folders.Keys == {ROOT} && HasRight(db, 1, ROOT, RIGHTS)
  {
    SetupGrants(digest);
    FileAdded(digest, Setup(), ROOT, "a");
    WithFileKeepsRights(After(digest, Setup()).db, After(digest, OneFile()).db, 1, ROOT, "a", ROOT);
  }

  // ----- two files of one name -----

  function TwoFiles(): seq<Request> { OneFile() + [NewFile(ROOT, "b")] }

  /** Two files of different names, and the second one renamed to the first one's name. */
  lemma RenameMakesTwins(digest: Bytes -> Bytes)
    ensures var reqs, rename := TwoFiles(), ModifyFile(1, 2, Some("a"), None, []);
      && Answered(digest, After(digest, reqs), rename)
      && NamesUnique(After(digest, reqs).db.files)
      && !NamesUnique(After(digest, reqs + [rename]).db.files)
  {
    TwoFilesAdded(digest);
    AfterInv(digest, TwoFiles());
    TwinsAfterRename(digest, After(digest, TwoFiles()));
    AfterLast(digest, TwoFiles(), ModifyFile(1, 2, Some("a"), None, []));
  }

  lemma TwinsAfterRename(digest: Bytes -> Bytes, w: World)
    requires FoldersOk(w.db) && w.db.files.Keys == {1, 2} && LiveFile(w.db.files, 1) && LiveFile(w.db.files, 2)
    requires w.db.files[1].folder == ROOT && w.db.files[2].folder == ROOT
    requires w.db.files[1].name == "a" && w.db.files[2].name == "b" && HasRight(w.db, 1, ROOT, RIGHTS)
    ensures var rename := ModifyFile(1, 2, Some("a"), None, []);
      && Answered(digest, w, rename)
      && NamesUnique(w.db.files)
      && !NamesUnique(Apply(digest, w, rename).db.files)
  {
    var rename := ModifyFile(1, 2, Some("a"), None, []);
    ReplyIsRight(digest, w, rename);
    assert NamesUnique(w.db.files);
    assert TakenByOther(w.db.files, 2, ROOT, "a");
    NamesStayUniqueIff(digest, w, rename);
  }

  lemma TwoFilesAdded(digest: Bytes -> Bytes)
    ensures var db := After(digest, TwoFiles()).db;
      && db.files.Keys == {1, 2} && LiveFile(db.files, 1) && LiveFile(db.files, 2)
      && db.files[1].folder == ROOT && db.files[2].folder == ROOT
      && db.files[1].name == "a" && db.files[2].name == "b"
      && HasRight(db, 1, ROOT, RIGHTS)
  {
    OneFileAdded(digest);
    FileAdded(digest, OneFile(), ROOT, "b");
    WithFileKeepsRights(After(digest, OneFile()).db, After(digest, TwoFiles()).db, 2, ROOT, "b", ROOT);
  }

  // ----- Admin is not enough for files -----

  /** The Admin bit alone lets a user create folders but not upload into them. */
  lemma AdminMayNotUpload(digest: Bytes -> Bytes)
    ensures var w := After(digest, [Grant(1, ROOT, PERM_ADMIN)]);
      && Answered(digest, w, NewFolder("a"))
      && UploadFileStep(digest, w.db, w.objects, 1, ROOT, "x", [], Stream([], false)).2 == PermissionDenied
  {
    var w := After(digest, [Grant(1, ROOT, PERM_ADMIN)]);
    AfterLast(digest, [], Grant(1, ROOT, PERM_ADMIN));
    assert [] + [Grant(1, ROOT, PERM_ADMIN)] == [Grant(1, ROOT, PERM_ADMIN)];
    RootGrant(w, PERM_ADMIN);
    MaskTest(w.db, 1, ROOT, PERM_CREATE);
    ReplyIsRight(digest, w, NewFolder("a"));
  }
}
