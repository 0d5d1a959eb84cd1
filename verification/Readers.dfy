/** Who may read a file that is moved to another folder, and who may move it there. */
module Readers {
  import opened Wrappers
  import opened Paths
  import opened Tables
  import opened Permissions
  import opened VersionRows
  import opened Cas
  import opened FileServices
  import opened Runs
  import opened RunTheorems
  import opened Replies

  function Move(u: nat, i: nat, g: nat): Request { ModifyFile(u, i, None, Some(g), []) }

  lemma MoveEffect(digest: Bytes -> Bytes, w: World, u: nat, i: nat, g: nat)
    requires FoldersOk(w.db)
    ensures Answered(digest, w, Move(u, i, g)) <==>
              LiveFile(w.db.files, i) && HasRight(w.db, u, w.db.files[i].folder, PERM_RENAME) && Live(w.db.folders, g)
    ensures Answered(digest, w, Move(u, i, g)) ==>
              var w' := Apply(digest, w, Move(u, i, g));
              && w'.db == w.db.(files := w'.db.files) && w'.objects == w.objects
              && LiveFile(w'.db.files, i) && w'.db.files[i].folder == g
  {
    ReplyIsRight(digest, w, Move(u, i, g));
  }

  /** A move needs PERM_RENAME where the file is, and nothing where it goes except a live folder. */
  lemma MoveNeedsNothingThere(digest: Bytes -> Bytes, reqs: seq<Request>, u: nat, i: nat, g: nat)
    ensures var w := After(digest, reqs);
      Answered(digest, w, Move(u, i, g)) <==>
        LiveFile(w.db.files, i) && HasRight(w.db, u, w.db.files[i].folder, PERM_RENAME) && Live(w.db.folders, g)
  {
    AfterInv(digest, reqs);
    MoveEffect(digest, After(digest, reqs), u, i, g);
  }

  lemma AfterMove(digest: Bytes -> Bytes, reqs: seq<Request>, req: Request)
    requires !req.UploadFile? && !req.UploadVersion?
    ensures After(digest, reqs + [req]) == Apply(digest, After(digest, reqs), req)
    ensures ContentsOf(reqs + [req]) == ContentsOf(reqs)
  {
    RunLast(digest, Seeded(), reqs + [req]);
    assert Front(reqs + [req]) == reqs;
  }

  /** The rights on folders are those of the folders and grants tables. */
  lemma SameRights(db: Database, db': Database, v: nat, x: nat, target: Mask)
    requires db'.folders == db.folders && db'.grants == db.grants
    ensures HasRight(db', v, x, target) <==> HasRight(db, v, x, target)
  {
  }

  /** After the move the file's readers are exactly the readers of the target, for every stored version. */
  lemma MovedFileFollowsTarget(digest: Bytes -> Bytes, reqs: seq<Request>, u: nat, i: nat, g: nat, v: nat, n: nat)
    requires CollisionFree(digest, ContentsOf(reqs)) && Answered(digest, After(digest, reqs), Move(u, i, g))
    ensures var w, w' := After(digest, reqs), After(digest, reqs + [Move(u, i, g)]);
      DownloadStep(w'.db, w'.objects, v, i, n).Ok? <==>
        HasRight(w.db, v, g, PERM_READ) && (n == 0 || n in VersionsOf(w.db.versions, i))
  {
    var w, w' := After(digest, reqs), After(digest, reqs + [Move(u, i, g)]);
    AfterInv(digest, reqs);
    AfterMove(digest, reqs, Move(u, i, g));
    MoveEffect(digest, w, u, i, g);
    SameRights(w.db, w'.db, v, g, PERM_READ);
    DownloadServes(digest, reqs + [Move(u, i, g)], v, i, n);
  }

  /** When a user can read a file only by moving it: the right to rename it, and to read the target. */
  lemma MoveOpensFileIff(digest: Bytes -> Bytes, reqs: seq<Request>, u: nat, i: nat, g: nat)
    requires CollisionFree(digest, ContentsOf(reqs))
    ensures var w, w' := After(digest, reqs), After(digest, reqs + [Move(u, i, g)]);
      && Answered(digest, w, Move(u, i, g))
      && !DownloadStep(w.db, w.objects, u, i, 0).Ok?
      && DownloadStep(w'.db, w'.objects, u, i, 0).Ok?
      <==>
      && LiveFile(w.db.files, i)
      && HasRight(w.db, u, w.db.files[i].folder, PERM_RENAME)
      && !HasRight(w.db, u, w.db.files[i].folder, PERM_READ)
      && HasRight(w.db, u, g, PERM_READ)
  {
    MoveNeedsNothingThere(digest, reqs, u, i, g);
    DownloadServes(digest, reqs, u, i, 0);
    if Answered(digest, After(digest, reqs), Move(u, i, g)) {
      MovedFileFollowsTarget(digest, reqs, u, i, g, u, 0);
    }
  }
}
