/** The folder handlers: permission checks, path computation, table updates. */
module FolderServices {
  import opened Wrappers
  import opened Paths
  import opened Tables
  import opened Permissions
  import opened Tree
  import opened Move
  import opened Delete
  import opened Access
  import opened SqliteManagers

  /** HasPermission: None if the effective mask cannot be computed. */
  function Allowed(db: Database, u: nat, x: nat, target: Mask): Option<bool> {
    match Effective(db.folders, db.grants, u, x)
    case None => None
    case Some(mask) => Some(Allows(mask, target))
  }

  function CreateFolderStep(
    db: Database, u: nat, name: string, p: nat, inherits: bool, retention: nat): (Database, Reply<nat>)
  {
    match Allowed(db, u, p, PERM_CREATE_FOLDER)
    case None => (db, Internal)
    case Some(false) => (db, PermissionDenied)
    case Some(true) =>
      if !Live(db.folders, p) then (db, NotFound)
      else
        var n := db.nextFolder;
        var fs := Created(db.folders, n, name, p, ChildPath(db.folders, p), inherits, retention);
        var db' := db.(folders := fs, nextFolder := n + 1,
                       grants := GrantsAfterCreate(fs, db.grants, n, p, inherits, u));
        (db', if inherits || Effective(fs, db.grants, u, p).Some? then Ok(n) else Internal)
  }

  function MoveFolderStep(db: Database, u: nat, f: nat, q: nat): (Database, Reply<()>) {
    match (Allowed(db, u, f, PERM_MOVE_FOLDER), Allowed(db, u, q, PERM_CREATE_FOLDER))
    case (None, _) => (db, Internal)
    case (Some(false), _) => (db, PermissionDenied)
    case (Some(true), None) => (db, Internal)
    case (Some(true), Some(false)) => (db, PermissionDenied)
    case (Some(true), Some(true)) =>
      if !Live(db.folders, q) then (db, NotFound)
      else if !Live(db.folders, f) then (db, Internal)
      else (db.(folders := MovedUnder(db.folders, f, q)), Ok(()))
  }

  function DeleteFolderStep(db: Database, u: nat, f: nat, now: nat): (Database, Reply<()>) {
    match Allowed(db, u, f, PERM_DELETE_FOLDER)
    case None => (db, Internal)
    case Some(false) => (db, PermissionDenied)
    case Some(true) =>
      if !Live(db.folders, f) then (db, Internal)
      else (db.(folders := Deleted(db.folders, f, now), files := FilesDeleted(db.folders, db.files, f, now)), Ok(()))
  }

  class PermissionManager {
    const store: SqliteManager

    constructor (store: SqliteManager)
      ensures this.store == store
    {
      this.store := store;
    }

    method HasPermission(u: nat, x: nat, target: Mask) returns (r: Option<bool>)
      ensures r == Allowed(store.Db(), u, x, target)
    {
      var mask := store.GetUserEffectivePermissions(u, x);
      if mask.None? {
        return None;
      }
      r := Some(CheckPermission(Some(mask.value), target));
    }

    /** A missing permission object passes no test. */
    function CheckPermission(mask: Option<Mask>, target: Mask): (ok: bool)
      ensures mask.None? ==> !ok
      ensures mask.Some? && 31 in mask.value ==> ok
      ensures mask.Some? && 31 !in mask.value ==> (ok <==> target <= mask.value)
    {
      mask.Some? && Allows(mask.value, target)
    }
  }

  class FolderService {
    const store: SqliteManager
    const permissions: PermissionManager

    constructor (store: SqliteManager, permissions: PermissionManager)
      requires permissions.store == store
      ensures Valid() && this.store == store
    {
      this.store, this.permissions := store, permissions;
    }

    ghost predicate Valid() { permissions.store == store }

    method CreateFolder(u: nat, name: string, parent: nat, inherits: bool, retention: nat) returns (r: Reply<nat>)
      requires Valid()
      modifies store
      ensures (store.Db(), r) == CreateFolderStep(old(store.Db()), u, name, parent, inherits, retention)
    {
      var allowed := permissions.HasPermission(u, parent, PERM_CREATE_FOLDER);
      if allowed.None? {
        return Internal;
      }
      if !allowed.value {
        return PermissionDenied;
      }
      var row := store.GetFolder(parent);
      if row.None? {
        return NotFound;
      }
      var path := row.value.path + Str(parent) + "/";
      var id := store.CreateFolder(name, parent, path, inherits, retention);
      if !inherits {
        var mask := store.GetUserEffectivePermissions(u, parent);
        if mask.None? {
          return Internal;
        }
        store.SetUserPermission(u, id, mask.value);
      }
      r := Ok(id);
    }

    method MoveFolder(u: nat, f: nat, q: nat) returns (r: Reply<()>)
      requires Valid()
      modifies store
      ensures (store.Db(), r) == MoveFolderStep(old(store.Db()), u, f, q)
    {
      var allowed := permissions.HasPermission(u, f, PERM_MOVE_FOLDER);
      if allowed.None? {
        return Internal;
      }
      if !allowed.value {
        return PermissionDenied;
      }
      allowed := permissions.HasPermission(u, q, PERM_CREATE_FOLDER);
      if allowed.None? {
        return Internal;
      }
      if !allowed.value {
        return PermissionDenied;
      }
      var row := store.GetFolder(q);
      if row.None? {
        return NotFound;
      }
      var path := row.value.path + Str(q) + "/";
      var ok := store.MoveFolder(f, q, path);
      r := if ok then Ok(()) else Internal;
    }

    method DeleteFolder(u: nat, f: nat, now: nat) returns (r: Reply<()>)
      requires Valid()
      modifies store
      ensures (store.Db(), r) == DeleteFolderStep(old(store.Db()), u, f, now)
    {
      var allowed := permissions.HasPermission(u, f, PERM_DELETE_FOLDER);
      if allowed.None? {
        return Internal;
      }
      if !allowed.value {
        return PermissionDenied;
      }
      var ok := store.SoftDeleteFolder(f, now);
      r := if ok then Ok(()) else Internal;
    }
  }
}
