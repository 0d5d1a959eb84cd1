/**
 What every answered request does, said about the tables before and after it and nothing else.
 In each statement w is the world after any run and w' the world after one more request.
 */
module Effects {
  import opened Wrappers
  import opened Paths
  import opened Tables
  import opened Permissions
  import opened Tree
  import opened Move
  import opened Delete
  import opened Parents
  import opened Access
  import opened Cas
  import opened VersionRows
  import opened FolderServices
  import opened FileServices
  import opened Histories
  import opened Runs
  import opened RunTheorems
  import opened Replies

  lemma AfterLast(digest: Bytes -> Bytes, reqs: seq<Request>, req: Request)
    ensures After(digest, reqs + [req]) == Apply(digest, After(digest, reqs), req)
  {
    RunLast(digest, Seeded(), reqs + [req]);
    assert Front(reqs + [req]) == reqs;
  }

  // ----- DeleteFolder -----

  /** Rows that were live and are not any more carry this time; nothing else differs. */
  ghost predicate MarkedFolders(fs: Folders, fs': Folders, now: nat) {
    && fs'.Keys == fs.Keys
    && forall x | x in fs ::
         fs'[x] == if Live(fs, x) && !Live(fs', x) then fs[x].(deletedAt := Some(now)) else fs[x]
  }

  ghost predicate MarkedFiles(files: Files, files': Files, now: nat) {
    && files'.Keys == files.Keys
    && forall i | i in files ::
         files'[i] == if LiveFile(files, i) && !LiveFile(files', i) then files[i].(deletedAt := Some(now)) else files[i]
  }

  /** Where pointers reach the root exactly f and its descendants go; a cut-off folder goes with its parent. */
  ghost predicate SubtreeGone(fs: Folders, fs': Folders, f: nat) {
    && Live(fs, f) && !Live(fs', f)
    && (forall x: nat, ids | Ancestry(fs, ids, x) :: Live(fs', x) <==> f !in ids + [x])
    && (forall x: nat | Live(fs, x) && !ReachesRoot(fs, x) ::
          fs[x].parent.Some? && (Live(fs', x) <==> Live(fs', fs[x].parent.value)))
  }

  ghost predicate FilesGone(fs': Folders, files: Files, files': Files) {
    forall i | LiveFile(files, i) :: LiveFile(files', i) <==> Live(fs', files[i].folder)
  }

  lemma DeletedSubtreeGone(fs: Folders, f: nat, now: nat)
    requires Indexed(fs) && Parented(fs) && Rooted(fs, f)
    ensures SubtreeGone(fs, Deleted(fs, f, now), f)
  {
    var fs' := Deleted(fs, f, now);
    forall x: nat, ids | Ancestry(fs, ids, x)
      ensures Live(fs', x) <==> f !in ids + [x]
    {
      DeleteMarksSubtree(fs, f, now, ids, x);
      assert Live(fs, x);
    }
    forall x: nat | Live(fs, x) && !ReachesRoot(fs, x)
      ensures fs[x].parent.Some? && (Live(fs', x) <==> Live(fs', fs[x].parent.value))
    {
      RootedIffAncestry(fs, x);
      LiveParent(fs, x);
      DeleteFollowsParent(fs, f, now, x);
    }
  }

  lemma DeletedFilesGone(fs: Folders, files: Files, f: nat, now: nat)
    requires Indexed(fs) && Rooted(fs, f) && Housed(fs, files)
    ensures FilesGone(Deleted(fs, f, now), files, FilesDeleted(fs, files, f, now))
  {
    forall i | LiveFile(files, i)
      ensures LiveFile(FilesDeleted(fs, files, f, now), i) <==> Live(Deleted(fs, f, now), files[i].folder)
    {
      DeleteFollowsFolder(fs, files, f, now, i);
    }
  }

  lemma DeleteShape(db: Database, u: nat, f: nat, now: nat)
    requires Indexed(db.folders) && DeleteFolderStep(db, u, f, now).1.Ok?
    ensures Rooted(db.folders, f)
    ensures DeleteFolderStep(db, u, f, now).0
         == db.(folders := Deleted(db.folders, f, now), files := FilesDeleted(db.folders, db.files, f, now))
  {
    AllowedIsRooted(db, u, f, PERM_DELETE_FOLDER);
  }

  /** An answered delete marks the subtree and its files, and does nothing else. */
  lemma DeleteFolderEffect(digest: Bytes -> Bytes, reqs: seq<Request>, u: nat, f: nat, now: nat)
    requires Answered(digest, After(digest, reqs), DeleteFolder(u, f, now))
    ensures var w, w' := After(digest, reqs), After(digest, reqs + [DeleteFolder(u, f, now)]);
      && w' == w.(db := w.db.(folders := w'.db.folders, files := w'.db.files))
      && SubtreeGone(w.db.folders, w'.db.folders, f)
      && FilesGone(w'.db.folders, w.db.files, w'.db.files)
      && MarkedFolders(w.db.folders, w'.db.folders, now)
      && MarkedFiles(w.db.files, w'.db.files, now)
  {
    var db := After(digest, reqs).db;
    AfterInv(digest, reqs);
    AfterLast(digest, reqs, DeleteFolder(u, f, now));
    DeleteShape(db, u, f, now);
    DeletedSubtreeGone(db.folders, f, now);
    DeletedFilesGone(db.folders, db.files, f, now);
  }

  // ----- CreateFolder -----

  ghost predicate NewFolderRow(
    fs: Folders, fs': Folders, n: nat, name: string, p: nat, inherits: bool, retention: nat)
  {
    && n !in fs && n in fs'
    && fs' == fs[n := Folder(name, Some(p), fs'[n].path, inherits, retention, None)]
    && forall ids | Ancestry(fs, ids, p) :: Ancestry(fs', ids + [p], n) && fs'[n].path == Render(ids + [p])
  }

  /** The creator keeps the parent's mask; anybody else too, or only its Admin bit behind a break. */
  ghost predicate NewFolderRights(db: Database, db': Database, n: nat, p: nat, inherits: bool, u: nat) {
    && Rooted(db.folders, p) && Rooted(db'.folders, n)
    && forall v: nat ::
         Eff(db'.folders, db'.grants, v, n) ==
           if inherits || v == u then Eff(db.folders, db.grants, v, p)
           else Eff(db.folders, db.grants, v, p) * PERM_ADMIN
  }

  ghost predicate OldAnswersKept(db: Database, db': Database) {
    forall v: nat, y | y in db.folders ::
      Effective(db'.folders, db'.grants, v, y) == Effective(db.folders, db.grants, v, y)
  }

  lemma CreateShape(db: Database, u: nat, name: string, p: nat, inherits: bool, retention: nat)
    requires FoldersOk(db) && CreateFolderStep(db, u, name, p, inherits, retention).1.Ok?
    ensures var n := db.nextFolder;
      var path := if p in db.folders then ChildPath(db.folders, p) else "";
      var fs' := Created(db.folders, n, name, p, path, inherits, retention);
      && Rooted(db.folders, p)
      && CreateFolderStep(db, u, name, p, inherits, retention) == (
           db.(folders := fs', nextFolder := n + 1, grants := GrantsAfterCreate(fs', db.grants, n, p, inherits, u)),
           Ok(n))
  {
    AllowedIsRooted(db, u, p, PERM_CREATE_FOLDER);
  }

  lemma CreatedRow(fs: Folders, n: nat, name: string, p: nat, inherits: bool, retention: nat)
    requires Indexed(fs) && Rooted(fs, p) && n !in fs
    ensures var fs' := Created(fs, n, name, p, ChildPath(fs, p), inherits, retention);
      NewFolderRow(fs, fs', n, name, p, inherits, retention) && Rooted(fs', n)
  {
    var fs' := Created(fs, n, name, p, ChildPath(fs, p), inherits, retention);
    CreateKeepsIndexed(fs, n, name, p, inherits, retention);
    PlacedIds(fs', Chain(fs, p), n);
    forall ids | Ancestry(fs, ids, p)
      ensures Ancestry(fs', ids + [p], n) && fs'[n].path == Render(ids + [p])
    {
      AncestryIsPlaced(fs, ids, p);
      PlacedIds(fs, ids, p);
      PlacedIsAncestry(fs', Chain(fs, p), n);
    }
  }

  lemma CreatedRights(
    db: Database, fs': Folders, grants': Grants, name: string, p: nat, inherits: bool, retention: nat, u: nat, v: nat)
    requires FoldersOk(db) && Rooted(db.folders, p)
    requires fs' == Created(db.folders, db.nextFolder, name, p, ChildPath(db.folders, p), inherits, retention)
    requires grants' == GrantsAfterCreate(fs', db.grants, db.nextFolder, p, inherits, u)
    requires Rooted(fs', db.nextFolder)
    ensures Eff(fs', grants', v, db.nextFolder) ==
              if inherits || v == u then Eff(db.folders, db.grants, v, p)
              else Eff(db.folders, db.grants, v, p) * PERM_ADMIN
  {
    CreateKeepsIndexed(db.folders, db.nextFolder, name, p, inherits, retention);
    CreateSnapshotsAccess(db.folders, db.grants, db.nextFolder, name, p, inherits, retention, u, v);
    QueryIsTreeWalk(fs', grants', v, db.nextFolder);
  }

  lemma CreatedAnswers(
    db: Database, fs': Folders, grants': Grants, name: string, p: nat, inherits: bool, retention: nat, u: nat)
    requires FoldersOk(db) && Rooted(db.folders, p)
    requires fs' == Created(db.folders, db.nextFolder, name, p, ChildPath(db.folders, p), inherits, retention)
    requires grants' == GrantsAfterCreate(fs', db.grants, db.nextFolder, p, inherits, u)
    ensures forall v: nat, y | y in db.folders ::
              Effective(fs', grants', v, y) == Effective(db.folders, db.grants, v, y)
  {
    forall v: nat, y | y in db.folders
      ensures Effective(fs', grants', v, y) == Effective(db.folders, db.grants, v, y)
    {
      CreateKeepsAccess(db.folders, db.grants, db.nextFolder, name, p, inherits, retention, u, v, y);
    }
  }

  /** The reply names the new folder. */
  function CreatedId(db: Database, u: nat, name: string, p: nat, inherits: bool, retention: nat): Reply<nat> {
    CreateFolderStep(db, u, name, p, inherits, retention).1
  }

  lemma CreateEffect(db: Database, u: nat, name: string, p: nat, inherits: bool, retention: nat)
    requires FoldersOk(db) && CreateFolderStep(db, u, name, p, inherits, retention).1.Ok?
    ensures var (db', reply) := CreateFolderStep(db, u, name, p, inherits, retention);
      && db' == db.(folders := db'.folders, grants := db'.grants, nextFolder := db'.nextFolder)
      && (forall k | k in db.grants :: k in db'.grants && db'.grants[k] == db.grants[k])
      && (forall k | k in db'.grants :: k in db.grants || k == (u, reply.value))
      && NewFolderRow(db.folders, db'.folders, reply.value, name, p, inherits, retention)
      && NewFolderRights(db, db', reply.value, p, inherits, u)
      && OldAnswersKept(db, db')
  {
    var n := db.nextFolder;
    CreateShape(db, u, name, p, inherits, retention);
    var fs' := Created(db.folders, n, name, p, ChildPath(db.folders, p), inherits, retention);
    var grants' := GrantsAfterCreate(fs', db.grants, n, p, inherits, u);
    CreatedRow(db.folders, n, name, p, inherits, retention);
    forall v: nat
      ensures Eff(fs', grants', v, n) ==
                if inherits || v == u then Eff(db.folders, db.grants, v, p)
                else Eff(db.folders, db.grants, v, p) * PERM_ADMIN
    {
      CreatedRights(db, fs', grants', name, p, inherits, retention, u, v);
    }
    CreatedAnswers(db, fs', grants', name, p, inherits, retention, u);
  }

  /** An answered creation adds one folder with the rights it should have, and changes no other answer. */
  lemma CreateFolderEffect(
    digest: Bytes -> Bytes, reqs: seq<Request>, u: nat, name: string, p: nat, inherits: bool, retention: nat)
    requires Answered(digest, After(digest, reqs), CreateFolder(u, name, p, inherits, retention))
    ensures var w, w' := After(digest, reqs), After(digest, reqs + [CreateFolder(u, name, p, inherits, retention)]);
      var n := CreatedId(w.db, u, name, p, inherits, retention).value;
      && w' == w.(db := w.db.(folders := w'.db.folders, grants := w'.db.grants, nextFolder := w'.db.nextFolder))
      && (forall v: nat :: (v, n) !in w.db.grants)
      && (forall k | k in w.db.grants :: k in w'.db.grants && w'.db.grants[k] == w.db.grants[k])
      && (forall k | k in w'.db.grants :: k in w.db.grants || k == (u, n))
      && NewFolderRow(w.db.folders, w'.db.folders, n, name, p, inherits, retention)
      && NewFolderRights(w.db, w'.db, n, p, inherits, u)
      && OldAnswersKept(w.db, w'.db)
  {
    AfterInv(digest, reqs);
    AfterLast(digest, reqs, CreateFolder(u, name, p, inherits, retention));
    CreateEffect(After(digest, reqs).db, u, name, p, inherits, retention);
  }

  // ----- MoveFolder -----

  ghost predicate Reparents(fs: Folders, fs': Folders, f: nat, q: nat) {
    && fs'.Keys == fs.Keys && Live(fs, f) && Live(fs, q)
    && forall x | x in fs ::
         && fs'[x] == fs[x].(parent := if x == f then Some(q) else fs[x].parent, path := fs'[x].path)
         && (!Live(fs, x) ==> fs'[x] == fs[x])
  }

  /** A folder that is not f keeps its path exactly if its parent does. */
  ghost predicate PathsFollow(fs: Folders, fs': Folders, f: nat) {
    forall y: nat | Live(fs, y) && y != f && y in fs' ::
      fs'[y].path != fs[y].path <==>
        fs[y].parent.Some? && fs[y].parent.value in fs && fs[y].parent.value in fs'
        && fs'[fs[y].parent.value].path != fs[fs[y].parent.value].path
  }

  /** With q outside the subtree the new tree is indexed and nobody is lost; otherwise the subtree is cut off. */
  ghost predicate Rehung(fs: Folders, fs': Folders, f: nat, q: nat) {
    && (forall ids | Ancestry(fs, ids, q) && f !in ids + [q] ::
          && (forall y: nat :: ReachesRoot(fs', y) <==> ReachesRoot(fs, y))
          && (forall y: nat, a | Ancestry(fs', a, y) :: fs'[y].path == Render(a)))
    && (forall ids | Ancestry(fs, ids, q) && f in ids + [q] ::
          forall y: nat, a | Ancestry(fs, a, y) :: ReachesRoot(fs', y) <==> f !in a + [y])
  }

  lemma MoveShape(db: Database, u: nat, f: nat, q: nat)
    requires Indexed(db.folders) && MoveFolderStep(db, u, f, q).1.Ok?
    ensures Rooted(db.folders, f) && Rooted(db.folders, q)
    ensures MoveFolderStep(db, u, f, q).0 == db.(folders := MovedUnder(db.folders, f, q))
  {
    AllowedIsRooted(db, u, f, PERM_MOVE_FOLDER);
    AllowedIsRooted(db, u, q, PERM_CREATE_FOLDER);
  }

  lemma MovedReparents(fs: Folders, f: nat, q: nat)
    requires Indexed(fs) && Parented(fs) && Rooted(fs, f) && Rooted(fs, q)
    ensures Reparents(fs, MovedUnder(fs, f, q), f, q) && PathsFollow(fs, MovedUnder(fs, f, q), f)
  {
    var fs' := MovedUnder(fs, f, q);
    forall x | x in fs
      ensures fs'[x] == fs[x].(parent := if x == f then Some(q) else fs[x].parent, path := fs'[x].path)
      ensures !Live(fs, x) ==> fs'[x] == fs[x]
    {
      MoveChangesOnly(fs, f, q, x);
    }
    forall y: nat | Live(fs, y) && y != f
      ensures fs'[y].path != fs[y].path <==>
                fs[y].parent.Some? && fs[y].parent.value in fs
                && fs'[fs[y].parent.value].path != fs[fs[y].parent.value].path
    {
      MoveFollowsParent(fs, f, q, y);
    }
  }

  lemma MovedRehung(fs: Folders, f: nat, q: nat)
    requires Indexed(fs) && Rooted(fs, f) && Rooted(fs, q)
    ensures Rehung(fs, MovedUnder(fs, f, q), f, q)
  {
    var fs' := MovedUnder(fs, f, q);
    forall ids | Ancestry(fs, ids, q)
      ensures f in ids + [q] <==> Cyclic(fs, f, q)
    {
      AncestryIsPlaced(fs, ids, q);
      PlacedIds(fs, ids, q);
    }
    if Cyclic(fs, f, q) {
      forall y: nat, a | Ancestry(fs, a, y)
        ensures ReachesRoot(fs', y) <==> f !in a + [y]
      {
        AncestryIsPlaced(fs, a, y);
        PlacedIds(fs, a, y);
        CyclicMoveKeepsIndexed(fs, f, q);
        RootedAfterCyclicMove(fs, f, q, y);
        RootedIffAncestry(fs', y);
      }
    } else {
      forall y: nat, a: seq<nat>
        ensures ReachesRoot(fs', y) <==> ReachesRoot(fs, y)
        ensures Ancestry(fs', a, y) ==> fs'[y].path == Render(a)
      {
        MoveIndexesNewTree(fs, f, q, a, y);
      }
    }
  }

  /** An answered move hangs f under q and rewrites paths below it, and does nothing else. */
  lemma MoveFolderEffect(digest: Bytes -> Bytes, reqs: seq<Request>, u: nat, f: nat, q: nat)
    requires Answered(digest, After(digest, reqs), MoveFolder(u, f, q))
    ensures var w, w' := After(digest, reqs), After(digest, reqs + [MoveFolder(u, f, q)]);
      && w' == w.(db := w.db.(folders := w'.db.folders))
      && Reparents(w.db.folders, w'.db.folders, f, q)
      && PathsFollow(w.db.folders, w'.db.folders, f)
      && Rehung(w.db.folders, w'.db.folders, f, q)
  {
    AfterInv(digest, reqs);
    AfterLast(digest, reqs, MoveFolder(u, f, q));
    MoveShape(After(digest, reqs).db, u, f, q);
    MovedReparents(After(digest, reqs).db.folders, f, q);
    MovedRehung(After(digest, reqs).db.folders, f, q);
  }

  // ----- grants -----

  /** The key holds exactly this mask, and every other key what it held. */
  ghost predicate Replaced(grants: Grants, grants': Grants, u: nat, f: nat, mask: Mask) {
    && (u, f) in grants' && grants'[(u, f)] == mask
    && forall k | k != (u, f) :: (k in grants' <==> k in grants) && (k in grants ==> grants'[k] == grants[k])
  }

  /** What the parent passes on, cut to Admin at a break; nothing at the root. */
  ghost function Inherited(fs: Folders, grants: Grants, u: nat, f: nat): Mask
    requires Rooted(fs, f)
  {
    match fs[f].parent
    case None => {}
    case Some(p) =>
      ParentIds(fs, f);
      if fs[f].inherits then Eff(fs, grants, u, p) else Eff(fs, grants, u, p) * PERM_ADMIN
  }

  lemma EffAfterGrant(fs: Folders, grants: Grants, grants': Grants, u: nat, f: nat, mask: Mask)
    requires Indexed(fs) && Rooted(fs, f) && Replaced(grants, grants', u, f, mask)
    ensures Eff(fs, grants', u, f) == Inherited(fs, grants, u, f) + mask
  {
    if fs[f].parent.Some? {
      var p := fs[f].parent.value;
      ParentIds(fs, f);
      PlacedDistinct(fs, Ids(fs, f), f);
      LastIsNew(Ids(fs, f), f);
      SameGrantsSameEff(fs, grants, grants', u, p);
    }
  }

  lemma {:induction false} SameGrantsSameEff(fs: Folders, grants: Grants, grants': Grants, u: nat, x: nat)
    requires Rooted(fs, x)
    requires forall k | 0 <= k < |Chain(fs, x)| ::
               GrantOf(grants', u, Chain(fs, x)[k]) == GrantOf(grants, u, Chain(fs, x)[k])
    ensures Eff(fs, grants', u, x) == Eff(fs, grants, u, x)
  {
    EffIsFold(fs, grants, u, x);
    EffIsFold(fs, grants', u, x);
    assert Links(fs, grants', u, Chain(fs, x)) == Links(fs, grants, u, Chain(fs, x));
  }

  /** A grant replaces the mask, so it takes bits away as well as it gives them. */
  lemma GrantEffect(digest: Bytes -> Bytes, reqs: seq<Request>, u: nat, f: nat, mask: Mask)
    requires f in After(digest, reqs).db.folders
    ensures var w, w' := After(digest, reqs), After(digest, reqs + [Grant(u, f, mask)]);
      && w' == w.(db := w.db.(grants := w'.db.grants))
      && Replaced(w.db.grants, w'.db.grants, u, f, mask)
      && (Rooted(w.db.folders, f) ==>
            Effective(w'.db.folders, w'.db.grants, u, f) == Some(Inherited(w.db.folders, w.db.grants, u, f) + mask))
  {
    var w, w' := After(digest, reqs), After(digest, reqs + [Grant(u, f, mask)]);
    AfterInv(digest, reqs);
    AfterLast(digest, reqs, Grant(u, f, mask));
    if Rooted(w.db.folders, f) {
      EffAfterGrant(w.db.folders, w.db.grants, w'.db.grants, u, f, mask);
      QueryIsTreeWalk(w.db.folders, w'.db.grants, u, f);
    }
  }

  /** The last of two grants on one key counts. */
  lemma LastGrantCounts(digest: Bytes -> Bytes, reqs: seq<Request>, u: nat, f: nat, a: Mask, b: Mask)
    ensures After(digest, reqs + [Grant(u, f, a)] + [Grant(u, f, b)]) == After(digest, reqs + [Grant(u, f, b)])
  {
    AfterLast(digest, reqs, Grant(u, f, a));
    AfterLast(digest, reqs + [Grant(u, f, a)], Grant(u, f, b));
    AfterLast(digest, reqs, Grant(u, f, b));
  }

  // ----- retention -----

  lemma RetentionEffectOn(db: Database, u: nat, f: nat, n: nat)
    requires Indexed(db.folders) && SetRetentionStep(db, u, f, n).1.Ok?
    ensures f in db.folders
    ensures SetRetentionStep(db, u, f, n).0 == db.(folders := db.folders[f := db.folders[f].(retention := n)])
  {
    QueryIsTreeWalk(db.folders, db.grants, u, f);
  }

  /** An answered policy is in force for the folder, and changes nothing else. */
  lemma SetRetentionEffect(digest: Bytes -> Bytes, reqs: seq<Request>, u: nat, f: nat, n: nat)
    requires Answered(digest, After(digest, reqs), SetRetention(u, f, n))
    ensures var w, w' := After(digest, reqs), After(digest, reqs + [SetRetention(u, f, n)]);
      && w' == w.(db := w.db.(folders := w'.db.folders))
      && w'.db.folders.Keys == w.db.folders.Keys && f in w'.db.folders
      && w'.db.folders[f] == w.db.folders[f].(retention := n)
      && RetentionOf(w'.db.folders, f) == n
      && forall x | x in w.db.folders && x != f :: w'.db.folders[x] == w.db.folders[x]
  {
    AfterInv(digest, reqs);
    AfterLast(digest, reqs, SetRetention(u, f, n));
    RetentionEffectOn(After(digest, reqs).db, u, f, n);
  }

  /** The next upload of a version in that folder leaves min(previous + 1, n) versions. */
  lemma RetentionPrunes(
    digest: Bytes -> Bytes, reqs: seq<Request>, u: nat, f: nat, n: nat, v: nat, i: nat, stream: Stream)
    requires n > 0 && Answered(digest, After(digest, reqs), SetRetention(u, f, n))
    requires Answered(digest, After(digest, reqs + [SetRetention(u, f, n)]), UploadVersion(v, i, stream))
    requires i in After(digest, reqs).db.files && After(digest, reqs).db.files[i].folder == f
    ensures var set_ := reqs + [SetRetention(u, f, n)];
      var m := |VersionsOf(After(digest, reqs).db.versions, i)|;
      |VersionsOf(After(digest, set_ + [UploadVersion(v, i, stream)]).db.versions, i)| == if m < n then m + 1 else n
  {
    var set_ := reqs + [SetRetention(u, f, n)];
    SetRetentionEffect(digest, reqs, u, f, n);
    UploadVersionCount(digest, set_, v, i, stream);
    AfterLast(digest, set_, UploadVersion(v, i, stream));
  }

  // ----- files -----

  /** The object table holds the content under its hash, and keeps what it had. */
  ghost predicate StoresContent(digest: Bytes -> Bytes, objects: Objects, objects': Objects, content: Bytes) {
    var key := ObjectKey(digest, content);
    && key in objects'
    && objects' == objects[key := if key in objects then objects[key] else content]
  }

  /** The reply names the new file and its first version. */
  ghost function UploadedIds(
    digest: Bytes -> Bytes, w: World, u: nat, f: nat, name: string, meta: Bytes, stream: Stream): Reply<Uploaded>
  {
    UploadFileStep(digest, w.db, w.objects, u, f, name, meta, stream).2
  }

  lemma UploadShape(
    digest: Bytes -> Bytes, db: Database, objects: Objects, u: nat, f: nat, name: string, meta: Bytes, stream: Stream)
    requires UploadFileStep(digest, db, objects, u, f, name, meta, stream).2.Ok?
    ensures Live(db.folders, f)
    ensures var (db', objects', reply) := UploadFileStep(digest, db, objects, u, f, name, meta, stream);
      var content, i, v := Concat(stream.chunks), reply.value.file, reply.value.version;
      && i == db.nextFile && v == db.nextVersion
      && objects' == Stored(objects, digest, content)
      && db' == db.(files := db'.files, versions := db'.versions, nextFile := i + 1, nextVersion := v + 1)
      && db'.files == db.files[i := File(
           name, f, ChildPath(db.folders, f), LocatorOf(digest, content), SCHEME, Some(v), meta, None)]
      && db'.versions == db.versions[v := Version(i, "v1", digest(content), u)]
  {
    RefusedOrAccepted(digest, db, objects, u, f, name, meta, stream);
    AcceptedShape(digest, db, objects, u, f, name, meta, stream);
  }

  lemma AcceptedShape(
    digest: Bytes -> Bytes, db: Database, objects: Objects, u: nat, f: nat, name: string, meta: Bytes, stream: Stream)
    requires UploadAccepted(digest, db, objects, u, f, name, meta, stream).2.Ok?
    ensures Live(db.folders, f)
    ensures var (db', objects', reply) := UploadAccepted(digest, db, objects, u, f, name, meta, stream);
      var content, i, v := Concat(stream.chunks), reply.value.file, reply.value.version;
      && i == db.nextFile && v == db.nextVersion
      && objects' == Stored(objects, digest, content)
      && db' == db.(files := db'.files, versions := db'.versions, nextFile := i + 1, nextVersion := v + 1)
      && db'.files == db.files[i := File(
           name, f, ChildPath(db.folders, f), LocatorOf(digest, content), SCHEME, Some(v), meta, None)]
      && db'.versions == db.versions[v := Version(i, "v1", digest(content), u)]
  {
    HashOfLocator(digest, Concat(stream.chunks));
    assert VersionName(1) == "v1";
  }

  /** An answered upload adds one object, one file row and its version v1, and nothing else. */
  lemma UploadFileEffect(
    digest: Bytes -> Bytes, reqs: seq<Request>, u: nat, f: nat, name: string, meta: Bytes, stream: Stream)
    requires Answered(digest, After(digest, reqs), UploadFile(u, f, name, meta, stream))
    ensures var w, w' := After(digest, reqs), After(digest, reqs + [UploadFile(u, f, name, meta, stream)]);
      var ids, content := UploadedIds(digest, w, u, f, name, meta, stream).value, Concat(stream.chunks);
      && ids.file !in w.db.files && ids.version !in w.db.versions && Live(w.db.folders, f)
      && w'.db.folders == w.db.folders && w'.db.grants == w.db.grants
      && w'.db.files == w.db.files[ids.file := File(
           name, f, ChildPath(w.db.folders, f), LocatorOf(digest, content), "file", Some(ids.version), meta, None)]
      && w'.db.versions == w.db.versions[ids.version := Version(ids.file, "v1", digest(content), u)]
      && StoresContent(digest, w.objects, w'.objects, content)
  {
    var w := After(digest, reqs);
    AfterInv(digest, reqs);
    AfterLast(digest, reqs, UploadFile(u, f, name, meta, stream));
    UploadShape(digest, w.db, w.objects, u, f, name, meta, stream);
  }

  ghost function UploadedVersion(digest: Bytes -> Bytes, w: World, u: nat, i: nat, stream: Stream): Reply<Uploaded> {
    UploadVersionStep(digest, w.db, w.objects, u, i, stream).2
  }

  lemma NextUploadShape(digest: Bytes -> Bytes, db: Database, objects: Objects, u: nat, i: nat, stream: Stream)
    requires UploadVersionStep(digest, db, objects, u, i, stream).2.Ok?
    ensures LiveFile(db.files, i)
    ensures var (db', objects', reply) := UploadVersionStep(digest, db, objects, u, i, stream);
      var content, v := Concat(stream.chunks), reply.value.version;
      && reply.value.file == i && v == db.nextVersion
      && objects' == Stored(objects, digest, content)
      && db' == db.(files := db'.files, versions := db'.versions, nextVersion := v + 1)
      && db'.files == db.files[i := db.files[i].(
           version := Some(v), storagePath := LocatorOf(digest, content), location := SCHEME)]
      && db'.versions == VersionsAfterUpload(
           db.versions, v, Version(i, VersionName(NextNumber(db.versions, i)), digest(content), u),
           RetentionOf(db.folders, db.files[i].folder))
  {
    HashOfLocator(digest, Concat(stream.chunks));
    RefusedOrNext(digest, db, objects, u, i, stream);
  }

  /** The row of version v, if it stays, and every other row that stays, is this one. */
  ghost predicate VersionAdded(vs: Versions, vs': Versions, v: nat, row: Version) {
    && v !in vs && v in vs' && vs'[v] == row
    && (forall x | x in vs' && x != v :: x in vs && vs'[x] == vs[x])
    && (forall x | x in vs && vs[x].file != row.file :: x in vs')
  }

  lemma {:induction false} PrunedAdds(vs: Versions, v: nat, row: Version, n: nat)
    requires v !in vs && forall x | x in vs :: x < v
    ensures VersionAdded(vs, VersionsAfterUpload(vs, v, row, n), v, row)
  {
    assert Newer(vs[v := row], row.file, v) == {};
  }

  /** What a further upload of content as version v of file i does to tables and objects. */
  ghost predicate VersionUploaded(
    digest: Bytes -> Bytes, w: World, db': Database, objects': Objects, u: nat, i: nat, v: nat, content: Bytes)
  {
    && LiveFile(w.db.files, i) && i in w.log
    && db' == w.db.(files := db'.files, versions := db'.versions, nextVersion := db'.nextVersion)
    && db'.files == w.db.files[i := w.db.files[i].(
         version := Some(v), storagePath := LocatorOf(digest, content), location := "file")]
    && VersionAdded(w.db.versions, db'.versions, v,
                    Version(i, VersionName(|w.log[i].uploads| + 1), digest(content), u))
    && StoresContent(digest, w.objects, objects', content)
  }

  /**
   An answered further upload adds one object and one version row, named by the number of uploads so far,
   moves the file's pointer and locator, drops rows of this file only, and does nothing else.
   */
  lemma UploadVersionEffect(digest: Bytes -> Bytes, reqs: seq<Request>, u: nat, i: nat, stream: Stream)
    requires Answered(digest, After(digest, reqs), UploadVersion(u, i, stream))
    ensures var w, w' := After(digest, reqs), After(digest, reqs + [UploadVersion(u, i, stream)]);
      var v := UploadedVersion(digest, w, u, i, stream).value.version;
      VersionUploaded(digest, w, w'.db, w'.objects, u, i, v, Concat(stream.chunks))
  {
    AfterInv(digest, reqs);
    AfterLast(digest, reqs, UploadVersion(u, i, stream));
    NextUploadInState(digest, After(digest, reqs), u, i, stream);
  }

  lemma NextUploadInState(digest: Bytes -> Bytes, w: World, u: nat, i: nat, stream: Stream)
    requires Inv(digest, w) && UploadVersionStep(digest, w.db, w.objects, u, i, stream).2.Ok?
    ensures var (db', objects', reply) := UploadVersionStep(digest, w.db, w.objects, u, i, stream);
      VersionUploaded(digest, w, db', objects', u, i, reply.value.version, Concat(stream.chunks))
  {
    var (db', objects', reply) := UploadVersionStep(digest, w.db, w.objects, u, i, stream);
    NextUploadShape(digest, w.db, w.objects, u, i, stream);
    UploadedInState(digest, w, db', objects', u, i, Concat(stream.chunks));
  }

  lemma UploadedInState(
    digest: Bytes -> Bytes, w: World, db': Database, objects': Objects, u: nat, i: nat, content: Bytes)
    requires Inv(digest, w) && LiveFile(w.db.files, i) && objects' == Stored(w.objects, digest, content)
    requires db' == w.db.(files := db'.files, versions := db'.versions, nextVersion := db'.nextVersion)
    requires db'.files == w.db.files[i := w.db.files[i].(
      version := Some(w.db.nextVersion), storagePath := LocatorOf(digest, content), location := SCHEME)]
    requires db'.versions == VersionsAfterUpload(
      w.db.versions, w.db.nextVersion, Version(i, VersionName(NextNumber(w.db.versions, i)), digest(content), u),
      RetentionOf(w.db.folders, w.db.files[i].folder))
    ensures VersionUploaded(digest, w, db', objects', u, i, w.db.nextVersion, content)
  {
    CountedNumber(digest, w, i);
    PrunedAdds(w.db.versions, w.db.nextVersion,
               Version(i, VersionName(|w.log[i].uploads| + 1), digest(content), u),
               RetentionOf(w.db.folders, w.db.files[i].folder));
  }

  lemma CountedNumber(digest: Bytes -> Bytes, w: World, i: nat)
    requires Inv(digest, w) && i in w.db.files
    ensures i in w.log && NextNumber(w.db.versions, i) == |w.log[i].uploads| + 1
  {
    assert RecordedAt(digest, w.db, w.log, i);
    NextNumberCounts(digest, w.db.versions, w.db.nextVersion, w.log[i], i, w.db.files[i]);
  }

  /** What a modification may write, column by column. */
  ghost predicate Modified(fs: Folders, row: File, row': File, name: Option<string>, folder: Option<nat>, meta: Bytes) {
    && row'.name == (if name.Some? then name.value else row.name)
    && row'.folder == (if folder.Some? then folder.value else row.folder)
    && (if folder.Some? then folder.value in fs && row'.path == ChildPath(fs, folder.value) else row'.path == row.path)
    && row'.metadata == (if meta != [] then meta else row.metadata)
    && row'.storagePath == row.storagePath && row'.location == row.location
    && row'.version == row.version && row'.deletedAt == row.deletedAt
  }

  lemma ModifyShape(db: Database, u: nat, i: nat, name: Option<string>, folder: Option<nat>, meta: Bytes)
    requires ModifyFileStep(db, u, i, name, folder, meta).1.Ok?
    ensures LiveFile(db.files, i)
    ensures var (db', reply) := ModifyFileStep(db, u, i, name, folder, meta);
      && i in db'.files && db' == db.(files := db.files[i := db'.files[i]])
      && Modified(db.folders, db.files[i], db'.files[i], name, folder, meta)
      && reply.value == db'.files[i]
  {
  }

  ghost function ModifiedRow(
    db: Database, u: nat, i: nat, name: Option<string>, folder: Option<nat>, meta: Bytes): Reply<File>
  {
    ModifyFileStep(db, u, i, name, folder, meta).1
  }

  /** An answered modification writes what was asked for in one row, replies with it, and does nothing else. */
  lemma ModifyFileEffect(
    digest: Bytes -> Bytes, reqs: seq<Request>, u: nat, i: nat, name: Option<string>, folder: Option<nat>, meta: Bytes)
    requires Answered(digest, After(digest, reqs), ModifyFile(u, i, name, folder, meta))
    ensures var w, w' := After(digest, reqs), After(digest, reqs + [ModifyFile(u, i, name, folder, meta)]);
      && LiveFile(w.db.files, i) && i in w'.db.files
      && w' == w.(db := w.db.(files := w.db.files[i := w'.db.files[i]]))
      && Modified(w.db.folders, w.db.files[i], w'.db.files[i], name, folder, meta)
      && ModifiedRow(w.db, u, i, name, folder, meta) == Ok(w'.db.files[i])
  {
    AfterLast(digest, reqs, ModifyFile(u, i, name, folder, meta));
    ModifyShape(After(digest, reqs).db, u, i, name, folder, meta);
  }

  lemma DeleteFileShape(db: Database, u: nat, i: nat, now: nat)
    requires DeleteFileStep(db, u, i, now).1.Ok?
    ensures LiveFile(db.files, i)
    ensures DeleteFileStep(db, u, i, now).0 == db.(files := db.files[i := db.files[i].(deletedAt := Some(now))])
  {
  }

  /** An answered file deletion marks this file, and does nothing else. */
  lemma DeleteFileEffect(digest: Bytes -> Bytes, reqs: seq<Request>, u: nat, i: nat, now: nat)
    requires Answered(digest, After(digest, reqs), DeleteFile(u, i, now))
    ensures var w, w' := After(digest, reqs), After(digest, reqs + [DeleteFile(u, i, now)]);
      && LiveFile(w.db.files, i) && !LiveFile(w'.db.files, i)
      && w' == w.(db := w.db.(files := w.db.files[i := w.db.files[i].(deletedAt := Some(now))]))
  {
    AfterLast(digest, reqs, DeleteFile(u, i, now));
    DeleteFileShape(After(digest, reqs).db, u, i, now);
  }
}
