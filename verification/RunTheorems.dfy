/** What holds after every run of requests on a fresh server. */
module RunTheorems {
  import opened Wrappers
  import opened Paths
  import opened Tables
  import opened Permissions
  import opened Tree
  import opened Move
  import opened Delete
  import opened Parents
  import opened Access
  import opened Cas
  import opened VersionRows
  import opened FolderServices
  import opened FileServices
  import opened Histories
  import opened Runs

  lemma RunSplit(digest: Bytes -> Bytes, w: World, a: seq<Request>, b: seq<Request>)
    ensures Run(digest, w, a + b) == Run(digest, Run(digest, w, a), b)
  {
    IterateSplit((v, req) => Apply(digest, v, req), w, a, b);
  }

  ghost function After(digest: Bytes -> Bytes, reqs: seq<Request>): World { Run(digest, Seeded(), reqs) }

  lemma AfterInv(digest: Bytes -> Bytes, reqs: seq<Request>)
    ensures Inv(digest, After(digest, reqs))
  {
    SeededInv(digest);
    RunKeepsInv(digest, Seeded(), reqs);
  }

  // ----- the index and the permission query -----

  /**
   Whatever the requests were, cyclic moves included: the query answers exactly for the folders whose
   live parent pointers reach the root, its answer is the recursion over those pointers, and the path
   of such a folder is the rendered list of its ancestors.
   */
  lemma EveryRunAnswersByTheTree(digest: Bytes -> Bytes, reqs: seq<Request>, u: nat, x: nat, ids: seq<nat>)
    ensures var db := After(digest, reqs).db;
      && (Effective(db.folders, db.grants, u, x).Some? <==> ReachesRoot(db.folders, x))
      && (Rooted(db.folders, x) <==> ReachesRoot(db.folders, x))
      && (Rooted(db.folders, x) ==>
            Effective(db.folders, db.grants, u, x) == Some(Eff(db.folders, db.grants, u, x)))
      && (Ancestry(db.folders, ids, x) ==> db.folders[x].path == Render(ids))
  {
    var db := After(digest, reqs).db;
    AfterInv(digest, reqs);
    QueryIsTreeWalk(db.folders, db.grants, u, x);
    if Ancestry(db.folders, ids, x) {
      AncestryIsPlaced(db.folders, ids, x);
    }
  }

  lemma {:induction false} NeverRootedAgain(digest: Bytes -> Bytes, w: World, reqs: seq<Request>, x: nat)
    requires Inv(digest, w) && x in w.db.folders && !Rooted(w.db.folders, x)
    ensures var w' := Run(digest, w, reqs); x in w'.db.folders && !Rooted(w'.db.folders, x)
    decreases |reqs|
  {
    if reqs != [] {
      RunLast(digest, w, reqs);
      NeverRootedAgain(digest, w, Front(reqs), x);
      RunKeepsInv(digest, w, Front(reqs));
      ApplyKeepsInv(digest, Run(digest, w, Front(reqs)), Last(reqs));
    }
  }

  /** A folder that was once cut off, or deleted, answers no query in any later state. */
  lemma CutOffForever(
    digest: Bytes -> Bytes, reqs: seq<Request>, more: seq<Request>, u: nat, v: nat, x: nat)
    requires var db := After(digest, reqs).db;
      x in db.folders && Effective(db.folders, db.grants, u, x) == None
    ensures var db' := After(digest, reqs + more).db; Effective(db'.folders, db'.grants, v, x) == None
  {
    var db, db' := After(digest, reqs).db, After(digest, reqs + more).db;
    AfterInv(digest, reqs);
    AfterInv(digest, reqs + more);
    RunSplit(digest, Seeded(), reqs, more);
    QueryIsTreeWalk(db.folders, db.grants, u, x);
    NeverRootedAgain(digest, After(digest, reqs), more, x);
    QueryIsTreeWalk(db'.folders, db'.grants, v, x);
  }

  // ----- runs without cyclic moves -----

  ghost predicate AllRooted(fs: Folders) { forall x | Live(fs, x) :: Rooted(fs, x) }

  /** An accepted move into the own subtree. */
  ghost predicate CyclicStep(db: Database, req: Request) {
    && req.MoveFolder?
    && MoveFolderStep(db, req.user, req.folder, req.target).1.Ok?
    && req.target in db.folders && Cyclic(db.folders, req.folder, req.target)
  }

  ghost predicate AcyclicRun(digest: Bytes -> Bytes, w: World, reqs: seq<Request>) {
    reqs == []
    || (AcyclicRun(digest, w, Front(reqs)) && !CyclicStep(Run(digest, w, Front(reqs)).db, Last(reqs)))
  }

  lemma CreateKeepsAllRooted(db: Database, u: nat, name: string, p: nat, inherits: bool, n: nat)
    requires FoldersOk(db) && AllRooted(db.folders)
    ensures AllRooted(CreateFolderStep(db, u, name, p, inherits, n).0.folders)
  {
    if Allowed(db, u, p, PERM_CREATE_FOLDER) == Some(true) {
      AllowedIsRooted(db, u, p, PERM_CREATE_FOLDER);
      CreatedAllRooted(db.folders, db.nextFolder, name, p, inherits, n);
    }
  }

  lemma CreatedAllRooted(fs: Folders, x: nat, name: string, p: nat, inherits: bool, n: nat)
    requires Indexed(fs) && AllRooted(fs) && x !in fs && Rooted(fs, p)
    ensures AllRooted(Created(fs, x, name, p, ChildPath(fs, p), inherits, n))
  {
    CreateKeepsIndexed(fs, x, name, p, inherits, n);
    PlacedIds(Created(fs, x, name, p, ChildPath(fs, p), inherits, n), Chain(fs, p), x);
  }

  lemma MoveKeepsAllRooted(db: Database, u: nat, f: nat, q: nat)
    requires FoldersOk(db) && AllRooted(db.folders)
    ensures AllRooted(MoveFolderStep(db, u, f, q).0.folders) <==> !CyclicStep(db, MoveFolder(u, f, q))
  {
    if MoveFolderStep(db, u, f, q).1.Ok? {
      AllowedIsRooted(db, u, f, PERM_MOVE_FOLDER);
      AllowedIsRooted(db, u, q, PERM_CREATE_FOLDER);
      if Cyclic(db.folders, f, q) {
        MovedCutsOff(db.folders, f, q);
      } else {
        MovedAllRooted(db.folders, f, q);
      }
    }
  }

  lemma MovedCutsOff(fs: Folders, f: nat, q: nat)
    requires Indexed(fs) && Rooted(fs, f) && Rooted(fs, q) && Cyclic(fs, f, q)
    ensures !AllRooted(MovedUnder(fs, f, q))
  {
    MovedRow(fs, f, q, f);
    RootedAfterCyclicMove(fs, f, q, f);
    assert Live(MovedUnder(fs, f, q), f) && Chain(fs, f)[|Ids(fs, f)|] == f;
  }

  lemma MovedAllRooted(fs: Folders, f: nat, q: nat)
    requires Indexed(fs) && AllRooted(fs) && Rooted(fs, f) && Rooted(fs, q) && !Cyclic(fs, f, q)
    ensures AllRooted(MovedUnder(fs, f, q))
  {
    MoveKeepsIndexed(fs, f, q);
    forall y | Live(MovedUnder(fs, f, q), y)
      ensures Live(fs, y)
    {
    }
  }

  lemma DeleteKeepsAllRooted(db: Database, u: nat, f: nat, now: nat)
    requires FoldersOk(db) && AllRooted(db.folders)
    ensures AllRooted(DeleteFolderStep(db, u, f, now).0.folders)
  {
    if DeleteFolderStep(db, u, f, now).1.Ok? {
      AllowedIsRooted(db, u, f, PERM_DELETE_FOLDER);
      DeletedAllRooted(db.folders, f, now);
    }
  }

  lemma DeletedAllRooted(fs: Folders, f: nat, now: nat)
    requires Indexed(fs) && AllRooted(fs) && Rooted(fs, f)
    ensures AllRooted(Deleted(fs, f, now))
  {
    DeleteKeepsIndexed(fs, f, now);
    forall y | Live(Deleted(fs, f, now), y)
      ensures Rooted(Deleted(fs, f, now), y)
    {
      DeletedHits(fs, f, now, y);
    }
  }

  lemma RetainedAllRooted(fs: Folders, f: nat, n: nat)
    requires Indexed(fs) && AllRooted(fs) && f in fs
    ensures AllRooted(fs[f := fs[f].(retention := n)])
  {
    IndexedFrame(fs, fs[f := fs[f].(retention := n)]);
  }

  lemma SetRetentionKeepsAllRooted(db: Database, u: nat, f: nat, n: nat)
    requires FoldersOk(db) && AllRooted(db.folders)
    ensures AllRooted(SetRetentionStep(db, u, f, n).0.folders)
  {
    RetentionShape(db, u, f, n);
    if f in db.folders {
      RetainedAllRooted(db.folders, f, n);
    }
  }

  lemma RetentionShape(db: Database, u: nat, f: nat, n: nat)
    ensures var db' := SetRetentionStep(db, u, f, n).0;
      db'.files == db.files
      && (db'.folders == db.folders
          || (f in db.folders && db'.folders == db.folders[f := db.folders[f].(retention := n)]))
  {
  }

  /** The file handlers do not write the folders table. */
  lemma FileStepsKeepFolders(digest: Bytes -> Bytes, w: World, req: Request)
    requires !req.CreateFolder? && !req.MoveFolder? && !req.DeleteFolder? && !req.SetRetention?
    ensures Apply(digest, w, req).db.folders == w.db.folders
  {
    match req
    case Grant(_, _, _) =>
    case UploadFile(u, f, name, meta, stream) =>
      RefusedOrAccepted(digest, w.db, w.objects, u, f, name, meta, stream);
    case UploadVersion(u, i, stream) => RefusedOrNext(digest, w.db, w.objects, u, i, stream);
    case ModifyFile(_, _, _, _, _) =>
    case DeleteFile(_, _, _) =>
  }

  lemma ApplyKeepsAllRooted(digest: Bytes -> Bytes, w: World, req: Request)
    requires Inv(digest, w) && AllRooted(w.db.folders)
    ensures AllRooted(Apply(digest, w, req).db.folders) <==> !CyclicStep(w.db, req)
  {
    match req
    case CreateFolder(u, name, p, inherits, n) => CreateKeepsAllRooted(w.db, u, name, p, inherits, n);
    case MoveFolder(u, f, q) => MoveKeepsAllRooted(w.db, u, f, q);
    case DeleteFolder(u, f, now) => DeleteKeepsAllRooted(w.db, u, f, now);
    case SetRetention(u, f, n) => SetRetentionKeepsAllRooted(w.db, u, f, n);
    case _ => FileStepsKeepFolders(digest, w, req);
  }

  /** Every live folder is placed at every point of the run. */
  ghost predicate AlwaysRooted(digest: Bytes -> Bytes, w: World, reqs: seq<Request>) {
    forall k | 0 <= k <= |reqs| :: AllRooted(Run(digest, w, reqs[..k]).db.folders)
  }

  lemma AlwaysRootedLast(digest: Bytes -> Bytes, w: World, reqs: seq<Request>)
    requires reqs != []
    ensures AlwaysRooted(digest, w, reqs) <==>
              AlwaysRooted(digest, w, Front(reqs)) && AllRooted(Run(digest, w, reqs).db.folders)
  {
    assert forall k | 0 <= k < |reqs| :: Front(reqs)[..k] == reqs[..k];
    assert reqs[..|reqs|] == reqs;
  }

  lemma {:induction false} AlwaysRootedIff(digest: Bytes -> Bytes, w: World, reqs: seq<Request>)
    requires Inv(digest, w) && AllRooted(w.db.folders)
    ensures AlwaysRooted(digest, w, reqs) <==> AcyclicRun(digest, w, reqs)
    decreases |reqs|
  {
    if reqs == [] {
      assert forall k | 0 <= k <= |reqs| :: reqs[..k] == [];
    } else {
      var before := Run(digest, w, Front(reqs));
      RunLast(digest, w, reqs);
      AlwaysRootedLast(digest, w, reqs);
      AlwaysRootedIff(digest, w, Front(reqs));
      RunKeepsInv(digest, w, Front(reqs));
      if AlwaysRooted(digest, w, Front(reqs)) {
        assert Front(reqs)[..|Front(reqs)|] == Front(reqs);
        ApplyKeepsAllRooted(digest, before, Last(reqs));
      }
    }
  }

  /** The permission query answers on a live folder, for every user. */
  ghost predicate Served(db: Database, x: nat) { forall u: nat :: Effective(db.folders, db.grants, u, x).Some? }

  lemma ServedIsRooted(db: Database, x: nat)
    requires Indexed(db.folders)
    ensures Served(db, x) <==> Rooted(db.folders, x)
  {
    forall u: nat
      ensures Effective(db.folders, db.grants, u, x).Some? <==> Rooted(db.folders, x)
    {
      QueryIsTreeWalk(db.folders, db.grants, u, x);
    }
    assert Served(db, x) ==> Effective(db.folders, db.grants, 0, x).Some?;
  }

  lemma AllServedIsAllRooted(db: Database)
    requires Indexed(db.folders)
    ensures (forall x | Live(db.folders, x) :: Served(db, x)) <==> AllRooted(db.folders)
  {
    forall x
      ensures Served(db, x) <==> Rooted(db.folders, x)
    {
      ServedIsRooted(db, x);
    }
  }

  /**
   At every point of a run every live folder is served, exactly if the run accepts no move into the own
   subtree.  Requests for such moves that are refused do not count.
   */
  lemma AcyclicRunServesAll(digest: Bytes -> Bytes, reqs: seq<Request>)
    ensures AcyclicRun(digest, Seeded(), reqs) <==>
              forall k, x | 0 <= k <= |reqs| && Live(After(digest, reqs[..k]).db.folders, x) ::
                Served(After(digest, reqs[..k]).db, x)
  {
    SeededInv(digest);
    AlwaysRootedIff(digest, Seeded(), reqs);
    forall k | 0 <= k <= |reqs|
      ensures AllRooted(After(digest, reqs[..k]).db.folders) <==>
                forall x | Live(After(digest, reqs[..k]).db.folders, x) :: Served(After(digest, reqs[..k]).db, x)
    {
      AfterInv(digest, reqs[..k]);
      AllServedIsAllRooted(After(digest, reqs[..k]).db);
    }
  }

  /** Every live folder but the root has a live parent, in any run at all, cyclic moves included. */
  lemma EveryRunKeepsLiveParents(digest: Bytes -> Bytes, reqs: seq<Request>, x: nat)
    requires Live(After(digest, reqs).db.folders, x)
    ensures var fs := After(digest, reqs).db.folders;
      && (fs[x].parent.None? ==> x == ROOT)
      && (fs[x].parent.Some? ==> Live(fs, fs[x].parent.value))
  {
    AfterInv(digest, reqs);
    LiveParent(After(digest, reqs).db.folders, x);
  }

  /** No live file ever lies in a deleted folder, in any run at all. */
  lemma EveryRunHousesFiles(digest: Bytes -> Bytes, reqs: seq<Request>, i: nat)
    requires LiveFile(After(digest, reqs).db.files, i)
    ensures Live(After(digest, reqs).db.folders, After(digest, reqs).db.files[i].folder)
  {
    AfterInv(digest, reqs);
  }

  // ----- file versions -----

  /**
   The stored versions of a file are its last `kept` uploads, named by their position among all its
   uploads; the file points at the newest one, which is stored.
   */
  lemma EveryRunKeepsVersionSuffix(digest: Bytes -> Bytes, reqs: seq<Request>, i: nat)
    requires i in After(digest, reqs).db.files
    ensures i in After(digest, reqs).log
    ensures var db, h := After(digest, reqs).db, After(digest, reqs).log[i];
      && 1 <= h.kept <= |h.uploads|
      && |VersionsOf(db.versions, i)| == h.kept
      && (forall v :: v in VersionsOf(db.versions, i) <==> v in VersionIds(h)[|h.uploads| - h.kept..])
      && (forall j | |h.uploads| - h.kept <= j < |h.uploads| ::
            h.uploads[j].version in db.versions && db.versions[h.uploads[j].version].name == VersionName(j + 1))
      && db.files[i].version == Some(Last(h.uploads).version)
      && Last(h.uploads).version in VersionsOf(db.versions, i)
  {
    var db, log := After(digest, reqs).db, After(digest, reqs).log;
    AfterInv(digest, reqs);
    assert RecordedAt(digest, db, log, i);
    SuffixStored(digest, db.versions, db.nextVersion, log[i], i, db.files[i]);
  }

  lemma CountIs(digest: Bytes -> Bytes, w: World, i: nat)
    requires Inv(digest, w) && i in w.db.files
    ensures i in w.log && |VersionsOf(w.db.versions, i)| == w.log[i].kept
  {
    assert RecordedAt(digest, w.db, w.log, i);
    StoredCount(digest, w.db.versions, w.db.nextVersion, w.log[i], i, w.db.files[i]);
  }

  lemma NextUploadLogs(w: World, i: nat, stream: Stream, res: (Database, Objects, Reply<Uploaded>))
    requires i in w.log && i in w.db.files && i in res.0.files && res.2.Ok? && res.2.value.file == i
    ensures var n := RetentionOf(w.db.folders, w.db.files[i].folder);
      i in AfterNextUpload(w, res, stream).log
      && AfterNextUpload(w, res, stream).log[i].kept == if n == 0 || w.log[i].kept < n then w.log[i].kept + 1 else n
  {
  }

  /** A further upload stores one version more, up to the folder's retention. */
  lemma UploadVersionCount(digest: Bytes -> Bytes, reqs: seq<Request>, u: nat, i: nat, stream: Stream)
    requires var w := After(digest, reqs); UploadVersionStep(digest, w.db, w.objects, u, i, stream).2.Ok?
    ensures var w := After(digest, reqs);
      var db' := UploadVersionStep(digest, w.db, w.objects, u, i, stream).0;
      && LiveFile(w.db.files, i)
      && var n, m := RetentionOf(w.db.folders, w.db.files[i].folder), |VersionsOf(w.db.versions, i)|;
         |VersionsOf(db'.versions, i)| == if n == 0 || m < n then m + 1 else n
  {
    var w := After(digest, reqs);
    var res := UploadVersionStep(digest, w.db, w.objects, u, i, stream);
    AfterInv(digest, reqs);
    RefusedOrNext(digest, w.db, w.objects, u, i, stream);
    UploadVersionKeepsInv(digest, w, u, i, stream, res);
    CountIs(digest, w, i);
    CountIs(digest, AfterNextUpload(w, res, stream), i);
    NextUploadLogs(w, i, stream, res);
  }

  /** Histories only grow at their end. */
  ghost predicate LogGrows(log: map<nat, History>, log': map<nat, History>) {
    forall i | i in log :: i in log' && log[i].uploads <= log'[i].uploads
  }

  lemma UploadGrowsLog(digest: Bytes -> Bytes, w: World, stream: Stream, res: (Database, Objects, Reply<Uploaded>))
    requires Inv(digest, w) && (res.2.Ok? ==> res.2.value.file == w.db.nextFile)
    ensures LogGrows(w.log, AfterUpload(w, res, stream).log)
  {
  }

  lemma NextUploadGrowsLog(w: World, stream: Stream, res: (Database, Objects, Reply<Uploaded>))
    ensures LogGrows(w.log, AfterNextUpload(w, res, stream).log)
  {
  }

  lemma ApplyGrowsLog(digest: Bytes -> Bytes, w: World, req: Request)
    requires Inv(digest, w)
    ensures LogGrows(w.log, Apply(digest, w, req).log)
  {
    match req
    case UploadFile(u, f, name, meta, stream) =>
      RefusedOrAccepted(digest, w.db, w.objects, u, f, name, meta, stream);
      UploadGrowsLog(digest, w, stream, UploadFileStep(digest, w.db, w.objects, u, f, name, meta, stream));
    case UploadVersion(u, i, stream) =>
      NextUploadGrowsLog(w, stream, UploadVersionStep(digest, w.db, w.objects, u, i, stream));
    case _ =>
  }

  lemma {:induction false} RunGrowsLog(digest: Bytes -> Bytes, w: World, reqs: seq<Request>)
    requires Inv(digest, w)
    ensures LogGrows(w.log, Run(digest, w, reqs).log)
    decreases |reqs|
  {
    if reqs != [] {
      RunLast(digest, w, reqs);
      RunGrowsLog(digest, w, Front(reqs));
      RunKeepsInv(digest, w, Front(reqs));
      ApplyGrowsLog(digest, Run(digest, w, Front(reqs)), Last(reqs));
    }
  }

  /** A version name of a file is never given to another version, before or after pruning. */
  lemma NamesAreNeverReused(
    digest: Bytes -> Bytes, reqs: seq<Request>, more: seq<Request>, i: nat, a: nat, b: nat)
    requires i in After(digest, reqs).db.files && a in VersionsOf(After(digest, reqs).db.versions, i)
    requires i in After(digest, reqs + more).db.files && b in VersionsOf(After(digest, reqs + more).db.versions, i)
    requires After(digest, reqs).db.versions[a].name == After(digest, reqs + more).db.versions[b].name
    ensures a == b
  {
    AfterInv(digest, reqs);
    AfterInv(digest, reqs + more);
    RunSplit(digest, Seeded(), reqs, more);
    RunGrowsLog(digest, After(digest, reqs), more);
    var w, w' := After(digest, reqs), After(digest, reqs + more);
    assert RecordedAt(digest, w.db, w.log, i) && RecordedAt(digest, w'.db, w'.log, i);
    SameNameSameRow(digest, i, w.db.versions, w.db.nextVersion, w.log[i], w.db.files[i], a,
                    w'.db.versions, w'.db.nextVersion, w'.log[i], w'.db.files[i], b);
  }

  // ----- downloads -----

  /** Everything the uploads of a run sent. */
  function ContentsOf(reqs: seq<Request>): set<Bytes> {
    if reqs == [] then {}
    else ContentsOf(Front(reqs)) + Sent(Last(reqs))
  }

  function Sent(req: Request): set<Bytes> {
    if req.UploadFile? || req.UploadVersion? then {Concat(req.stream.chunks)} else {}
  }

  /** Stored objects and logged uploads are among these contents. */
  ghost predicate Drawn(w: World, contents: set<Bytes>) {
    && w.objects.Values <= contents
    && forall i, up | i in w.log && up in w.log[i].uploads :: up.content in contents
  }

  lemma StoredValues(objects: Objects, digest: Bytes -> Bytes, content: Bytes)
    ensures Stored(objects, digest, content).Values <= objects.Values + {content}
  {
  }

  lemma UploadDraws(
    digest: Bytes -> Bytes, w: World, u: nat, f: nat, name: string, meta: Bytes, stream: Stream, contents: set<Bytes>)
    requires Drawn(w, contents)
    ensures Drawn(AfterUpload(w, UploadFileStep(digest, w.db, w.objects, u, f, name, meta, stream), stream),
                  contents + {Concat(stream.chunks)})
  {
    RefusedOrAccepted(digest, w.db, w.objects, u, f, name, meta, stream);
    StoredValues(w.objects, digest, Concat(stream.chunks));
  }

  lemma NextUploadDraws(digest: Bytes -> Bytes, w: World, u: nat, i: nat, stream: Stream, contents: set<Bytes>)
    requires Drawn(w, contents)
    ensures Drawn(AfterNextUpload(w, UploadVersionStep(digest, w.db, w.objects, u, i, stream), stream),
                  contents + {Concat(stream.chunks)})
  {
    RefusedOrNext(digest, w.db, w.objects, u, i, stream);
    StoredValues(w.objects, digest, Concat(stream.chunks));
  }

  lemma ApplyDraws(digest: Bytes -> Bytes, w: World, req: Request, contents: set<Bytes>)
    requires Drawn(w, contents)
    ensures Drawn(Apply(digest, w, req), contents + Sent(req))
  {
    match req
    case UploadFile(u, f, name, meta, stream) => UploadDraws(digest, w, u, f, name, meta, stream, contents);
    case UploadVersion(u, i, stream) => NextUploadDraws(digest, w, u, i, stream, contents);
    case _ =>
  }

  lemma {:induction false} RunDraws(digest: Bytes -> Bytes, reqs: seq<Request>)
    ensures Drawn(After(digest, reqs), ContentsOf(reqs))
    decreases |reqs|
  {
    if reqs != [] {
      RunLast(digest, Seeded(), reqs);
      RunDraws(digest, Front(reqs));
      ApplyDraws(digest, After(digest, Front(reqs)), Last(reqs), ContentsOf(Front(reqs)));
    }
  }

  /** Whoever may read the file gets, for a stored version, exactly the bytes of that upload. */
  lemma DownloadReturnsUpload(digest: Bytes -> Bytes, reqs: seq<Request>, u: nat, i: nat, j: nat)
    requires CollisionFree(digest, ContentsOf(reqs))
    requires var w := After(digest, reqs);
      && LiveFile(w.db.files, i) && i in w.log
      && |w.log[i].uploads| - w.log[i].kept <= j < |w.log[i].uploads|
      && (var mask := Effective(w.db.folders, w.db.grants, u, w.db.files[i].folder);
          mask.Some? && Has(mask.value, PERM_READ))
    ensures var w := After(digest, reqs); var up := w.log[i].uploads[j];
      && DownloadStep(w.db, w.objects, u, i, up.version) == Ok(up.content)
      && Retrieved(w.objects, LocatorOf(digest, up.content)) == Some(up.content)
  {
    var w := After(digest, reqs);
    AfterInv(digest, reqs);
    RunDraws(digest, reqs);
    RetrieveUpload(digest, w, ContentsOf(reqs), i, j);
    ReadableDownload(w.db, w.objects, u, i, w.log[i].uploads[j].version, w.log[i].uploads[j].content);
  }

  lemma LatestUpload(digest: Bytes -> Bytes, w: World, i: nat)
    requires Inv(digest, w) && i in w.db.files
    ensures i in w.log && 1 <= w.log[i].kept <= |w.log[i].uploads|
    ensures w.db.files[i].version == Some(Last(w.log[i].uploads).version)
    ensures w.db.files[i].storagePath == LocatorOf(digest, Last(w.log[i].uploads).content)
  {
    assert RecordedAt(digest, w.db, w.log, i);
  }

  /** Without a version the download is that of the current version, the newest upload. */
  lemma LatestIsCurrent(digest: Bytes -> Bytes, reqs: seq<Request>, u: nat, i: nat)
    requires CollisionFree(digest, ContentsOf(reqs))
    requires var w := After(digest, reqs);
      && LiveFile(w.db.files, i)
      && (var mask := Effective(w.db.folders, w.db.grants, u, w.db.files[i].folder);
          mask.Some? && Has(mask.value, PERM_READ))
    ensures var w := After(digest, reqs);
      && i in w.log && w.log[i].uploads != [] && w.db.files[i].version.Some?
      && DownloadStep(w.db, w.objects, u, i, 0) == Ok(Last(w.log[i].uploads).content)
      && DownloadStep(w.db, w.objects, u, i, w.db.files[i].version.value) == Ok(Last(w.log[i].uploads).content)
  {
    AfterInv(digest, reqs);
    RunDraws(digest, reqs);
    LatestInState(digest, After(digest, reqs), ContentsOf(reqs), u, i);
  }

  lemma LatestInState(digest: Bytes -> Bytes, w: World, contents: set<Bytes>, u: nat, i: nat)
    requires Inv(digest, w) && Drawn(w, contents) && CollisionFree(digest, contents) && LiveFile(w.db.files, i)
    requires var mask := Effective(w.db.folders, w.db.grants, u, w.db.files[i].folder);
      mask.Some? && Has(mask.value, PERM_READ)
    ensures i in w.log && w.log[i].uploads != [] && w.db.files[i].version.Some?
    ensures DownloadStep(w.db, w.objects, u, i, 0) == Ok(Last(w.log[i].uploads).content)
    ensures DownloadStep(w.db, w.objects, u, i, w.db.files[i].version.value) == Ok(Last(w.log[i].uploads).content)
  {
    LatestUpload(digest, w, i);
    RetrieveUpload(digest, w, contents, i, |w.log[i].uploads| - 1);
    CurrentDownloads(w.db, w.objects, u, i, Last(w.log[i].uploads));
  }

  lemma CurrentDownloads(db: Database, objects: Objects, u: nat, i: nat, up: Upload)
    requires LiveFile(db.files, i) && db.files[i].version == Some(up.version)
    requires var mask := Effective(db.folders, db.grants, u, db.files[i].folder);
      mask.Some? && Has(mask.value, PERM_READ)
    requires DownloadUri(db, i, up.version) == Some(db.files[i].storagePath)
    requires Retrieved(objects, db.files[i].storagePath) == Some(up.content)
    ensures DownloadStep(db, objects, u, i, 0) == Ok(up.content)
    ensures DownloadStep(db, objects, u, i, db.files[i].version.value) == Ok(up.content)
  {
  }

  lemma ReadableDownload(db: Database, objects: Objects, u: nat, i: nat, v: nat, content: Bytes)
    requires LiveFile(db.files, i)
    requires var mask := Effective(db.folders, db.grants, u, db.files[i].folder);
      mask.Some? && Has(mask.value, PERM_READ)
    requires DownloadUri(db, i, v).Some? && Retrieved(objects, DownloadUri(db, i, v).value) == Some(content)
    ensures DownloadStep(db, objects, u, i, v) == Ok(content)
  {
  }

  lemma RetrieveUpload(digest: Bytes -> Bytes, w: World, contents: set<Bytes>, i: nat, j: nat)
    requires Inv(digest, w) && Drawn(w, contents) && CollisionFree(digest, contents) && i in w.db.files
    requires i in w.log && |w.log[i].uploads| - w.log[i].kept <= j < |w.log[i].uploads|
    ensures var up := w.log[i].uploads[j];
      && up.version != 0
      && DownloadUri(w.db, i, up.version) == Some(LocatorOf(digest, up.content))
      && Retrieved(w.objects, LocatorOf(digest, up.content)) == Some(up.content)
  {
    assert RecordedAt(digest, w.db, w.log, i) && Present(digest, w.objects, w.log[i]);
    var h := w.log[i];
    assert h.uploads[j] in h.uploads;
    StoredVersion(digest, w.db.versions, w.db.nextVersion, h, i, w.db.files[i], j);
    RetrieveStored(w.objects, digest, h.uploads[j].content, contents);
  }

  /** A version stored now and still stored after any further requests downloads as the same bytes. */
  lemma DownloadSurvives(
    digest: Bytes -> Bytes, reqs: seq<Request>, more: seq<Request>, u: nat, i: nat, j: nat)
    requires CollisionFree(digest, ContentsOf(reqs + more))
    requires i in After(digest, reqs).log && j < |After(digest, reqs).log[i].uploads|
    requires var w', up := After(digest, reqs + more), After(digest, reqs).log[i].uploads[j];
      && LiveFile(w'.db.files, i) && up.version in VersionsOf(w'.db.versions, i)
      && (var mask := Effective(w'.db.folders, w'.db.grants, u, w'.db.files[i].folder);
          mask.Some? && Has(mask.value, PERM_READ))
    ensures var w', up := After(digest, reqs + more), After(digest, reqs).log[i].uploads[j];
      DownloadStep(w'.db, w'.objects, u, i, up.version) == Ok(up.content)
  {
    var w, w' := After(digest, reqs), After(digest, reqs + more);
    var up := w.log[i].uploads[j];
    AfterInv(digest, reqs);
    AfterInv(digest, reqs + more);
    RunSplit(digest, Seeded(), reqs, more);
    RunGrowsLog(digest, w, more);
    assert w'.log[i].uploads[j] == up;
    assert RecordedAt(digest, w'.db, w'.log, i);
    StoredOnce(digest, w'.db.versions, w'.db.nextVersion, w'.log[i], i, w'.db.files[i], j);
    DownloadReturnsUpload(digest, reqs + more, u, i, j);
  }

  // ----- the path column of files -----

  /** Every live file's path column spells its folder. */
  ghost predicate PathsAgree(fs: Folders, files: Files) {
    forall i | LiveFile(files, i) :: files[i].folder in fs && files[i].path == ChildPath(fs, files[i].folder)
  }

  /**
   After any accepted move a live file's path spells its folder exactly if the move does not change f's
   path, or the folder is neither f nor one whose path is rewritten; among folders that reach the root,
   those are f's subtree.
   */
  lemma MoveLeavesFilePathsBehind(fs: Folders, files: Files, f: nat, q: nat, ids: seq<nat>, i: nat)
    requires Indexed(fs) && Rooted(fs, f) && Rooted(fs, q) && PathsAgree(fs, files)
    requires LiveFile(files, i) && Live(fs, files[i].folder)
    ensures var fs', y := MovedUnder(fs, f, q), files[i].folder;
      && y in fs'
      && (files[i].path == ChildPath(fs', y) <==>
            ChildPath(fs, q) == fs[f].path || !(y == f || ChildPath(fs, f) <= fs[y].path))
      && (Ancestry(fs, ids, y) ==>
            (files[i].path == ChildPath(fs', y) <==> ChildPath(fs, q) == fs[f].path || f !in ids + [y]))
  {
    var y := files[i].folder;
    MovedPathChanges(fs, f, q, y);
    SameChild(files[i].path, MovedUnder(fs, f, q)[y].path, fs[y].path, y);
    if Ancestry(fs, ids, y) {
      PrefixSelectsDescendants(fs, f, y, ids);
      OutsideMeans(f, ids, y);
    }
  }

  lemma SameChild(path: string, a: string, b: string, y: nat)
    requires path == b + Str(y) + "/"
    ensures path == a + Str(y) + "/" <==> a == b
  {
    if path == a + Str(y) + "/" {
      assert a == path[..|a|] && b == path[..|b|];
    }
  }

  lemma RowKeepsPaths(fs: Folders, files: Files, i: nat, row: File)
    requires PathsAgree(fs, files)
    requires row.deletedAt == None ==> row.folder in fs && row.path == ChildPath(fs, row.folder)
    ensures PathsAgree(fs, files[i := row])
  {
  }

  lemma CreateStepKeepsPaths(db: Database, u: nat, name: string, p: nat, inherits: bool, n: nat)
    requires FoldersOk(db) && PathsAgree(db.folders, db.files)
    ensures var db' := CreateFolderStep(db, u, name, p, inherits, n).0; PathsAgree(db'.folders, db'.files)
  {
  }

  lemma DeleteStepKeepsPaths(db: Database, u: nat, f: nat, now: nat)
    requires PathsAgree(db.folders, db.files)
    ensures var db' := DeleteFolderStep(db, u, f, now).0; PathsAgree(db'.folders, db'.files)
  {
  }

  lemma RetentionKeepsPaths(db: Database, u: nat, f: nat, n: nat)
    requires PathsAgree(db.folders, db.files)
    ensures var db' := SetRetentionStep(db, u, f, n).0; PathsAgree(db'.folders, db'.files)
  {
  }

  lemma ModifyKeepsPaths(
    db: Database, u: nat, i: nat, name: Option<string>, folder: Option<nat>, meta: Bytes)
    requires PathsAgree(db.folders, db.files)
    ensures var db' := ModifyFileStep(db, u, i, name, folder, meta).0; PathsAgree(db'.folders, db'.files)
  {
    if LiveFile(db.files, i) {
      UpdatesKeepPaths(db, i, name, folder, meta);
    }
  }

  lemma UpdatesKeepPaths(db: Database, i: nat, name: Option<string>, folder: Option<nat>, meta: Bytes)
    requires PathsAgree(db.folders, db.files) && LiveFile(db.files, i)
    ensures var db' := UpdatesApplied(db, i, name, folder, meta).0; PathsAgree(db'.folders, db'.files)
  {
    var db' := UpdatesApplied(db, i, name, folder, meta).0;
    assert db'.files == db.files[i := db'.files[i]];
    RowKeepsPaths(db.folders, db.files, i, db'.files[i]);
  }

  lemma DeleteFileKeepsPaths(db: Database, u: nat, i: nat, now: nat)
    requires PathsAgree(db.folders, db.files)
    ensures var db' := DeleteFileStep(db, u, i, now).0; PathsAgree(db'.folders, db'.files)
  {
    if LiveFile(db.files, i) {
      RowKeepsPaths(db.folders, db.files, i, db.files[i].(deletedAt := Some(now)));
    }
  }

  lemma UploadKeepsPaths(digest: Bytes -> Bytes, w: World, req: Request)
    requires PathsAgree(w.db.folders, w.db.files) && (req.UploadFile? || req.UploadVersion?)
    ensures PathsAgree(Apply(digest, w, req).db.folders, Apply(digest, w, req).db.files)
  {
    match req
    case UploadFile(u, f, name, meta, stream) =>
      RefusedOrAccepted(digest, w.db, w.objects, u, f, name, meta, stream);
      var db' := UploadAccepted(digest, w.db, w.objects, u, f, name, meta, stream).0;
      if db' != w.db {
        RowKeepsPaths(w.db.folders, w.db.files, w.db.nextFile, db'.files[w.db.nextFile]);
      }
    case UploadVersion(u, i, stream) =>
      RefusedOrNext(digest, w.db, w.objects, u, i, stream);
      var uri, v := LocatorOf(digest, Concat(stream.chunks)), w.db.nextVersion;
      if LiveFile(w.db.files, i) {
        RowKeepsPaths(w.db.folders, w.db.files, i,
                      w.db.files[i].(version := Some(v), storagePath := uri, location := SCHEME));
      }
  }

  lemma ApplyKeepsPaths(digest: Bytes -> Bytes, w: World, req: Request)
    requires FoldersOk(w.db) && PathsAgree(w.db.folders, w.db.files) && !req.MoveFolder?
    ensures PathsAgree(Apply(digest, w, req).db.folders, Apply(digest, w, req).db.files)
  {
    match req
    case CreateFolder(u, name, p, inherits, n) => CreateStepKeepsPaths(w.db, u, name, p, inherits, n);
    case DeleteFolder(u, f, now) => DeleteStepKeepsPaths(w.db, u, f, now);
    case SetRetention(u, f, n) => RetentionKeepsPaths(w.db, u, f, n);
    case ModifyFile(u, i, name, folder, meta) => ModifyKeepsPaths(w.db, u, i, name, folder, meta);
    case DeleteFile(u, i, now) => DeleteFileKeepsPaths(w.db, u, i, now);
    case Grant(_, _, _) =>
    case UploadFile(_, _, _, _, _) => UploadKeepsPaths(digest, w, req);
    case UploadVersion(_, _, _) => UploadKeepsPaths(digest, w, req);
  }

  /** Without folder moves the path column of files never goes stale. */
  lemma {:induction false} RunWithoutMovesKeepsPaths(digest: Bytes -> Bytes, w: World, reqs: seq<Request>)
    requires Inv(digest, w) && PathsAgree(w.db.folders, w.db.files)
    requires forall k | 0 <= k < |reqs| :: !reqs[k].MoveFolder?
    ensures PathsAgree(Run(digest, w, reqs).db.folders, Run(digest, w, reqs).db.files)
    decreases |reqs|
  {
    if reqs != [] {
      RunLast(digest, w, reqs);
      RunWithoutMovesKeepsPaths(digest, w, Front(reqs));
      RunKeepsInv(digest, w, Front(reqs));
      ApplyKeepsPaths(digest, Run(digest, w, Front(reqs)), Last(reqs));
    }
  }
}
