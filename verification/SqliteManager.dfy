/** The database manager: tables updated in place, one method per statement or transaction. */
module SqliteManagers {
  import opened Wrappers
  import opened Paths
  import opened Tables
  import opened Permissions
  import opened Tree
  import opened Move
  import opened Delete
  import opened Access
  import opened VersionRows

  const ROOT_FOLDER := Folder("root", None, "", true, 0, None)

  class SqliteManager {
    var folders: Folders
    var files: Files
    var versions: Versions
    var grants: Grants
    var nextFolder: nat
    var nextFile: nat
    var nextVersion: nat

    /** The tables as one value. */
    ghost function Db(): Database
      reads this
    {
      Database(folders, files, versions, grants, nextFolder, nextFile, nextVersion)
    }

    /** Empty tables, then EnsureRootFolder. */
    constructor ()
      ensures Db() == Database(map[ROOT := ROOT_FOLDER], map[], map[], map[], 2, 1, 1)
    {
      folders, files, versions, grants := map[], map[], map[], map[];
      nextFolder, nextFile, nextVersion := 1, 1, 1;
      new;
      EnsureRootFolder();
    }

    /** Inserts row 1 unless it exists, live or deleted. */
    method EnsureRootFolder()
      modifies this
      ensures ROOT in old(folders) ==> Db() == old(Db())
      ensures ROOT !in old(folders) ==> Db() == old(Db()).(
                folders := old(folders)[ROOT := ROOT_FOLDER],
                nextFolder := if old(nextFolder) <= ROOT then ROOT + 1 else old(nextFolder))
    {
      if ROOT !in folders {
        folders := folders[ROOT := ROOT_FOLDER];
        nextFolder := if nextFolder <= ROOT then ROOT + 1 else nextFolder;
      }
    }

    // ----- folders -----

    method GetFolder(id: nat) returns (row: Option<Folder>)
      ensures row == if Live(folders, id) then Some(folders[id]) else None
    {
      row := if Live(folders, id) then Some(folders[id]) else None;
    }

    method CreateFolder(name: string, parent: nat, path: string, inherits: bool, retention: nat) returns (id: nat)
      modifies this
      ensures id == old(nextFolder)
      ensures Db() == old(Db()).(
                folders := Created(old(folders), id, name, parent, path, inherits, retention),
                nextFolder := id + 1)
    {
      id := nextFolder;
      folders := folders[id := Folder(name, Some(parent), path, inherits, retention, None)];
      nextFolder := nextFolder + 1;
    }

    method MoveFolder(f: nat, q: nat, newPath: string) returns (ok: bool)
      modifies this
      ensures ok == Live(old(folders), f)
      ensures Db() == if ok then old(Db()).(folders := Moved(old(folders), f, q, newPath)) else old(Db())
    {
      if !Live(folders, f) {
        return false;
      }
      var oldPrefix := folders[f].path + Str(f) + "/";
      var newPrefix := newPath + Str(f) + "/";
      folders := folders[f := folders[f].(parent := Some(q), path := newPath)];
      ghost var t := folders;
      var todo := folders.Keys;
      while todo != {}
        invariant todo <= t.Keys && folders.Keys == t.Keys
        invariant forall y | y in t ::
                    folders[y] == if y in todo then t[y] else RewriteRow(t[y], oldPrefix, newPrefix)
        invariant Db() == old(Db()).(folders := folders)
        decreases |todo|
      {
        var y :| y in todo;
        if folders[y].deletedAt == None && oldPrefix <= folders[y].path {
          folders := folders[y := folders[y].(path := newPrefix + folders[y].path[|oldPrefix|..])];
        }
        todo := todo - {y};
      }
      ok := true;
    }

    method SoftDeleteFolder(f: nat, now: nat) returns (ok: bool)
      modifies this
      ensures ok == Live(old(folders), f)
      ensures Db() == if ok then old(Db()).(folders := Deleted(old(folders), f, now),
                                            files := FilesDeleted(old(folders), old(files), f, now))
                      else old(Db())
    {
      if !Live(folders, f) {
        return false;
      }
      var prefix := folders[f].path + Str(f) + "/";
      folders := folders[f := folders[f].(deletedAt := Some(now))];
      MarkFolders(prefix, now);
      assert folders == Deleted(old(folders), f, now);
      MarkFiles(f, prefix, now);
      assert files == FilesDeleted(old(folders), old(files), f, now);
      ok := true;
    }

    /** `UPDATE folders SET deleted_at` for the live folders whose path has the prefix. */
    method MarkFolders(prefix: string, now: nat)
      modifies this`folders
      ensures folders.Keys == old(folders.Keys)
      ensures forall y | y in folders :: folders[y] == MarkFolder(prefix, now, old(folders)[y])
    {
      var todo := folders.Keys;
      while todo != {}
        invariant todo <= old(folders.Keys) && folders.Keys == old(folders.Keys)
        invariant forall y | y in folders ::
                    folders[y] == if y in todo then old(folders)[y] else MarkFolder(prefix, now, old(folders)[y])
        decreases |todo|
      {
        var y :| y in todo;
        if folders[y].deletedAt == None && prefix <= folders[y].path {
          folders := folders[y := folders[y].(deletedAt := Some(now))];
        }
        todo := todo - {y};
      }
    }

    /** `UPDATE files SET deleted_at` for the files in f and in any folder whose path has the prefix. */
    method MarkFiles(f: nat, prefix: string, now: nat)
      modifies this`files
      ensures files.Keys == old(files.Keys)
      ensures forall i | i in files :: files[i] == MarkFile(folders, f, prefix, now, old(files)[i])
    {
      var todo := files.Keys;
      while todo != {}
        invariant todo <= old(files.Keys) && files.Keys == old(files.Keys)
        invariant forall i | i in files ::
                    files[i] == if i in todo then old(files)[i] else MarkFile(folders, f, prefix, now, old(files)[i])
        decreases |todo|
      {
        var i :| i in todo;
        var file := files[i];
        if file.deletedAt == None
           && (file.folder == f || (file.folder in folders && prefix <= folders[file.folder].path)) {
          files := files[i := file.(deletedAt := Some(now))];
        }
        todo := todo - {i};
      }
    }

    method SetRetentionPolicy(id: nat, lastN: nat)
      modifies this
      ensures Db() == old(Db()).(folders :=
                if id in old(folders) then old(folders)[id := old(folders)[id].(retention := lastN)] else old(folders))
    {
      if id in folders {
        folders := folders[id := folders[id].(retention := lastN)];
      }
    }

    method GetVersionRetention(id: nat) returns (retention: Option<nat>)
      ensures retention == if id in folders then Some(folders[id].retention) else None
    {
      retention := if id in folders then Some(folders[id].retention) else None;
    }

    // ----- permissions -----

    method SetUserPermission(u: nat, f: nat, mask: Mask)
      modifies this
      ensures Db() == old(Db()).(grants := Granted(old(grants), u, f, mask))
    {
      grants := grants[(u, f) := mask];
    }

    /** Parses the path, checks that the whole chain is live, and walks it from the root down. */
    method GetUserEffectivePermissions(u: nat, x: nat) returns (r: Option<Mask>)
      ensures r == Effective(folders, grants, u, x)
    {
      if x !in folders {
        return None;
      }
      var parts := Split(Trim(folders[x].path, '/'), '/');
      var folderIds := CollectIds(parts);
      folderIds := folderIds + [x];

      var inheritance, count := FetchInheritance(folderIds);
      if count < |folderIds| {
        return None;
      }
      CountOfChain(folders, folderIds);
      var permissions := FetchPermissions(u, folderIds);

      var idChain := CollectIds(parts);
      idChain := idChain + [x];
      var effective := WalkChain(u, idChain, inheritance, permissions);
      r := Some(effective);
    }

    /** The inheritance flags of the live folders among ids, and how many there are. */
    method FetchInheritance(ids: seq<nat>) returns (inheritance: map<nat, bool>, count: nat)
      ensures count == |LiveOf(folders, ids)| && inheritance.Keys == LiveOf(folders, ids)
      ensures forall id | id in inheritance :: inheritance[id] == folders[id].inherits
    {
      inheritance, count := map[], 0;
      var rows := set id | id in folders.Keys && id in ids && folders[id].deletedAt == None;
      assert rows == LiveOf(folders, ids);
      while rows != {}
        invariant rows <= LiveOf(folders, ids) && count == |LiveOf(folders, ids)| - |rows|
        invariant inheritance.Keys == LiveOf(folders, ids) - rows
        invariant forall id | id in inheritance :: inheritance[id] == folders[id].inherits
        decreases |rows|
      {
        var id :| id in rows;
        inheritance := inheritance[id := folders[id].inherits];
        count := count + 1;
        rows := rows - {id};
      }
    }

    /** The explicit grants of the user on the folders among ids. */
    method FetchPermissions(u: nat, ids: seq<nat>) returns (permissions: map<nat, Mask>)
      ensures forall id :: id in permissions <==> id in ids && (u, id) in grants
      ensures forall id | id in permissions :: permissions[id] == grants[(u, id)]
    {
      permissions := map[];
      var rows := set k | k in grants.Keys && k.0 == u && k.1 in ids;
      ghost var all := rows;
      while rows != {}
        invariant rows <= all
        invariant forall id :: id in permissions <==> (u, id) in all - rows
        invariant forall id | id in permissions :: permissions[id] == grants[(u, id)]
        decreases |rows|
      {
        var k :| k in rows;
        permissions := permissions[k.1 := grants[k]];
        rows := rows - {k};
      }
    }

    /** The ids spelled by the non-empty parts. */
    method CollectIds(parts: seq<string>) returns (ids: seq<nat>)
      ensures ids == IdsOf(parts)
    {
      ids := [];
      for n := 0 to |parts|
        invariant ids == IdsOf(parts[..n])
      {
        if parts[n] != "" {
          ids := ids + [Scan(parts[n])];
        }
        assert Front(parts[..n + 1]) == parts[..n] && Last(parts[..n + 1]) == parts[n];
      }
      assert parts[..|parts|] == parts;
    }

    /** The loop over the chain: a break above index 0 clears all but Admin, then the grant is added. */
    method WalkChain(u: nat, chain: seq<nat>, inheritance: map<nat, bool>, permissions: map<nat, Mask>)
      returns (effective: Mask)
      requires forall id | id in chain ::
                 Live(folders, id) && id in inheritance && inheritance[id] == folders[id].inherits
      requires forall id | id in chain :: (id in permissions <==> (u, id) in grants)
      requires forall id | id in permissions :: (u, id) in grants && permissions[id] == grants[(u, id)]
      ensures effective == Fold(Links(folders, grants, u, chain))
    {
      effective := {};
      for i := 0 to |chain|
        invariant effective == Fold(Links(folders, grants, u, chain[..i]))
      {
        var id := chain[i];
        assert id in chain;
        var mask := if id in permissions then permissions[id] else {};
        if !inheritance[id] && i > 0 {
          var hasAdmin := effective * PERM_ADMIN != {};
          effective := {};
          if hasAdmin {
            effective := effective + PERM_ADMIN;
          }
        }
        effective := effective + mask;
        assert chain[..i + 1] == chain[..i] + [id];
        LinksSnoc(folders, grants, u, chain[..i], id);
        if i == 0 {
          assert Links(folders, grants, u, chain[..0]) == [];
        }
      }
      assert chain[..|chain|] == chain;
    }

    // ----- files and versions -----

    method GetFile(i: nat) returns (row: Option<File>)
      ensures row == if LiveFile(files, i) then Some(files[i]) else None
    {
      row := if LiveFile(files, i) then Some(files[i]) else None;
    }

    /** Some live row of that name in the folder, if there is one. */
    method GetFileByName(folder: nat, name: string) returns (row: Option<File>)
      ensures row.None? ==> forall i | LiveFile(files, i) :: files[i].folder != folder || files[i].name != name
      ensures row.Some? ==> row.value.folder == folder && row.value.name == name
                            && exists i :: LiveFile(files, i) && files[i] == row.value
    {
      var rows := set i | i in files.Keys && LiveFile(files, i) && files[i].folder == folder && files[i].name == name;
      if i :| i in rows {
        return Some(files[i]);
      }
      assert forall i | LiveFile(files, i) :: i !in rows;
      row := None;
    }

    method CreateFile(name: string, folder: nat, path: string, storagePath: string, location: string, meta: Bytes)
      returns (i: nat)
      modifies this
      ensures i == old(nextFile)
      ensures Db() == old(Db()).(
                files := old(files)[i := File(name, folder, path, storagePath, location, None, meta, None)],
                nextFile := i + 1)
    {
      i := nextFile;
      files := files[i := File(name, folder, path, storagePath, location, None, meta, None)];
      nextFile := nextFile + 1;
    }

    method CreateVersion(file: nat, name: string, hash: Bytes, u: nat) returns (v: nat)
      modifies this
      ensures v == old(nextVersion)
      ensures Db() == old(Db()).(
                versions := old(versions)[v := Version(file, name, hash, u)], nextVersion := v + 1)
    {
      v := nextVersion;
      versions := versions[v := Version(file, name, hash, u)];
      nextVersion := nextVersion + 1;
    }

    method UpdateFileVersion(i: nat, v: nat, storagePath: string, location: string)
      modifies this
      ensures Db() == old(Db()).(files :=
                if i in old(files)
                then old(files)[i :=
                  old(files)[i].(version := Some(v), storagePath := storagePath, location := location)]
                else old(files))
    {
      if i in files {
        files := files[i := files[i].(version := Some(v), storagePath := storagePath, location := location)];
      }
    }

    method DeleteOldVersions(file: nat, keepLastN: nat)
      modifies this
      ensures Db() == old(Db()).(versions :=
                if keepLastN == 0 then old(versions) else Pruned(old(versions), file, keepLastN))
    {
      if keepLastN == 0 {
        return;
      }
      var keep := NewestIds(versions, file, keepLastN);
      if |keep| == 0 {
        forall v | v in VersionsOf(versions, file)
          ensures |Newer(versions, file, v)| >= keepLastN
        {
          assert v !in keep;
        }
        NothingKept(versions, file, keepLastN);
        return;
      }
      versions := map v | v in versions && (versions[v].file != file || v in keep) :: versions[v];
      assert versions == Pruned(old(versions), file, keepLastN);
    }

    method SoftDeleteFile(i: nat, now: nat)
      modifies this
      ensures Db() == old(Db()).(files :=
                if i in old(files) then old(files)[i := old(files)[i].(deletedAt := Some(now))] else old(files))
    {
      if i in files {
        files := files[i := files[i].(deletedAt := Some(now))];
      }
    }

    method RenameFile(i: nat, name: string)
      modifies this
      ensures Db() == old(Db()).(files :=
                if i in old(files) then old(files)[i := old(files)[i].(name := name)] else old(files))
    {
      if i in files {
        files := files[i := files[i].(name := name)];
      }
    }

    method MoveFile(i: nat, folder: nat, path: string)
      modifies this
      ensures Db() == old(Db()).(files :=
                if i in old(files) then old(files)[i := old(files)[i].(folder := folder, path := path)] else old(files))
    {
      if i in files {
        files := files[i := files[i].(folder := folder, path := path)];
      }
    }

    method UpdateFileMetadata(i: nat, meta: Bytes)
      modifies this
      ensures Db() == old(Db()).(files :=
                if i in old(files) then old(files)[i := old(files)[i].(metadata := meta)] else old(files))
    {
      if i in files {
        files := files[i := files[i].(metadata := meta)];
      }
    }
  }
}
