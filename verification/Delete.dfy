/**
 SoftDeleteFolder as a table update: mark one folder, the live rows whose path has its prefix, and
 the live files of those folders.  The file statement also matches rows deleted earlier.
 */
module Delete {
  import opened Wrappers
  import opened Tables
  import opened Tree

  /** `UPDATE folders ... WHERE path LIKE prefix% AND deleted_at IS NULL`, on one row. */
  function MarkFolder(prefix: string, now: nat, row: Folder): Folder {
    if row.deletedAt == None && prefix <= row.path then row.(deletedAt := Some(now)) else row
  }

  function Deleted(fs: Folders, f: nat, now: nat): Folders
    requires f in fs
  {
    map y | y in fs ::
      if y == f then fs[y].(deletedAt := Some(now)) else MarkFolder(ChildPath(fs, f), now, fs[y])
  }

  /** `UPDATE files ... WHERE folder_id = ? OR folder_id IN (SELECT ...)`, over live and deleted folders. */
  function MarkFile(fs: Folders, f: nat, prefix: string, now: nat, file: File): File {
    if file.deletedAt == None
       && (file.folder == f || (file.folder in fs && prefix <= fs[file.folder].path))
    then file.(deletedAt := Some(now)) else file
  }

  function FilesDeleted(fs: Folders, files: Files, f: nat, now: nat): Files
    requires f in fs
  {
    map i | i in files :: MarkFile(fs, f, ChildPath(fs, f), now, files[i])
  }

  /** Every live file lies in a live folder. */
  ghost predicate Housed(fs: Folders, files: Files) {
    forall i | LiveFile(files, i) :: Live(fs, files[i].folder)
  }

  lemma DeletedHits(fs: Folders, f: nat, now: nat, y: nat)
    requires Indexed(fs) && Rooted(fs, f) && Live(fs, y)
    ensures Live(Deleted(fs, f, now), y) <==> !(Chain(fs, f) <= Ids(fs, y)) && y != f
    ensures Rooted(fs, y) ==> (Live(Deleted(fs, f, now), y) <==> f !in Chain(fs, y))
  {
    assert RowOk(fs, y);
    PrefixMatches(fs, f, Ids(fs, y));
    if Rooted(fs, y) {
      AncestorPrefix(fs, Ids(fs, f), f, Ids(fs, y), y);
      assert f in Chain(fs, y) <==> f in Ids(fs, y) || f == y;
    }
  }

  /** What is left is what was placed outside the deleted subtree, where it was. */
  lemma RootedAfterDelete(fs: Folders, f: nat, now: nat, ids: seq<nat>, y: nat)
    requires Indexed(fs) && Rooted(fs, f)
    ensures Placed(Deleted(fs, f, now), ids, y) <==> Placed(fs, ids, y) && f !in ids + [y]
  {
    var fs' := Deleted(fs, f, now);
    if Placed(fs, ids, y) && f !in ids + [y] {
      forall z | z in ids + [y]
        ensures Live(fs', z)
      {
        var k :| 0 <= k < |ids + [y]| && (ids + [y])[k] == z;
        PlacedAtChain(fs, ids, y, k);
        PlacedIds(fs, (ids + [y])[..k], z);
        DeletedHits(fs, f, now, z);
        assert f !in (ids + [y])[..k];
      }
      PlacedFrame(fs, fs', ids, y);
    }
    if Placed(fs', ids, y) {
      PlacedInTable(fs', ids, y);
      assert !Live(fs', f);
      PlacedFrame(fs', fs, ids, y);
    }
  }

  lemma LoopAfterDelete(fs: Folders, f: nat, now: nat, y: nat)
    requires Indexed(fs) && Rooted(fs, f) && Live(fs, y) && !Rooted(fs, y)
    requires Live(Deleted(fs, f, now), y)
    ensures Looped(Deleted(fs, f, now), y)
  {
    assert RowOk(fs, y);
    DeletedHits(fs, f, now, y);
    var i, j :| LoopAt(fs, Chain(fs, y), i, j);
    LoopAtAfterDelete(fs, f, now, y, i, j);
    assert Chain(Deleted(fs, f, now), y) == Chain(fs, y);
  }

  lemma LoopAtAfterDelete(fs: Folders, f: nat, now: nat, y: nat, i: int, j: int)
    requires Indexed(fs) && Rooted(fs, f) && y in fs
    requires !(Chain(fs, f) <= Ids(fs, y)) && LoopAt(fs, Chain(fs, y), i, j)
    ensures LoopAt(Deleted(fs, f, now), Chain(fs, y), i, j)
  {
    StaysCutOff(fs, f, now, Chain(fs, y)[i]);
    if i > 0 {
      StubAfterDelete(fs, f, now, y, i);
    }
  }

  lemma StaysCutOff(fs: Folders, f: nat, now: nat, g: nat)
    requires Indexed(fs) && Rooted(fs, f) && !Rooted(fs, g)
    ensures !Rooted(Deleted(fs, f, now), g)
  {
    if g in fs {
      RootedAfterDelete(fs, f, now, Ids(fs, g), g);
    }
  }

  lemma StubAfterDelete(fs: Folders, f: nat, now: nat, y: nat, i: int)
    requires Indexed(fs) && Rooted(fs, f) && y in fs && 0 < i <= |Ids(fs, y)|
    requires !(Chain(fs, f) <= Ids(fs, y)) && Placed(fs, Chain(fs, y)[..i - 1], Chain(fs, y)[i - 1])
    ensures Placed(Deleted(fs, f, now), Chain(fs, y)[..i - 1], Chain(fs, y)[i - 1])
  {
    var c := Chain(fs, y);
    StubMeets(fs, f, y, i);
    TakeSnoc(c, i);
    RootedAfterDelete(fs, f, now, c[..i - 1], c[i - 1]);
  }

  lemma DeleteRowOk(fs: Folders, f: nat, now: nat, y: nat)
    requires Indexed(fs) && Rooted(fs, f) && Live(Deleted(fs, f, now), y)
    ensures RowOk(Deleted(fs, f, now), y)
  {
    var fs' := Deleted(fs, f, now);
    assert RowOk(fs, y);
    DeletedHits(fs, f, now, y);
    RootedAfterDelete(fs, f, now, Ids(fs, y), y);
    if !Rooted(fs, y) {
      LoopAfterDelete(fs, f, now, y);
    }
    if fs[y].parent.Some? && Rooted(fs', fs[y].parent.value) {
      var p := fs[y].parent.value;
      RootedAfterDelete(fs, f, now, Ids(fs, p), p);
      ParentIds(fs, y);
    }
  }

  lemma DeleteKeepsIndexed(fs: Folders, f: nat, now: nat)
    requires Indexed(fs) && Rooted(fs, f)
    ensures Indexed(Deleted(fs, f, now))
    ensures forall y :: Rooted(Deleted(fs, f, now), y) <==> Rooted(fs, y) && f !in Chain(fs, y)
  {
    var fs' := Deleted(fs, f, now);
    forall y | Live(fs', y)
      ensures RowOk(fs', y)
    {
      DeleteRowOk(fs, f, now, y);
    }
    forall y
      ensures Rooted(fs', y) <==> Rooted(fs, y) && f !in Chain(fs, y)
    {
      if y in fs {
        RootedAfterDelete(fs, f, now, Ids(fs, y), y);
      }
    }
  }

  /** No live file is left behind: files are matched by the same prefix as folders, and more. */
  lemma DeleteKeepsHoused(fs: Folders, files: Files, f: nat, now: nat)
    requires f in fs && Housed(fs, files)
    ensures Housed(Deleted(fs, f, now), FilesDeleted(fs, files, f, now))
  {
  }

  /** Exactly f and its descendants by live parent pointers get the deletion time. */
  lemma DeleteMarksSubtree(fs: Folders, f: nat, now: nat, ids: seq<nat>, y: nat)
    requires Indexed(fs) && Rooted(fs, f) && Ancestry(fs, ids, y)
    ensures Deleted(fs, f, now)[y] == if f in ids + [y] then fs[y].(deletedAt := Some(now)) else fs[y]
  {
    PrefixSelectsDescendants(fs, f, y, ids);
    assert f in ids + [y] <==> f in ids || f == y;
  }

  /** Exactly the live files in that subtree get the deletion time as well. */
  lemma DeleteMarksFiles(fs: Folders, files: Files, f: nat, now: nat, ids: seq<nat>, i: nat)
    requires Indexed(fs) && Rooted(fs, f) && LiveFile(files, i) && Ancestry(fs, ids, files[i].folder)
    ensures FilesDeleted(fs, files, f, now)[i] ==
              if f in ids + [files[i].folder] then files[i].(deletedAt := Some(now)) else files[i]
  {
    PrefixSelectsDescendants(fs, f, files[i].folder, ids);
    assert f in ids + [files[i].folder] <==> f in ids || f == files[i].folder;
  }

  /** No earlier deletion time is rewritten, although deleted rows with stale paths are matched. */
  lemma DeleteKeepsEarlierMarks(fs: Folders, files: Files, f: nat, now: nat)
    requires Live(fs, f)
    ensures Deleted(fs, f, now).Keys == fs.Keys && FilesDeleted(fs, files, f, now).Keys == files.Keys
    ensures forall y | y in fs && !Live(fs, y) :: Deleted(fs, f, now)[y] == fs[y]
    ensures forall i | i in files && !LiveFile(files, i) :: FilesDeleted(fs, files, f, now)[i] == files[i]
  {
  }
}
