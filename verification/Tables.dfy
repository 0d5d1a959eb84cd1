/** The rows of the relational tables, and the whole database as a value. */
module Tables {
  import opened Wrappers

  type Byte = n: nat | n < 256
  type Bytes = seq<Byte>
  /** A bitmask as the set of its bit positions; see module Bitmask for the words behind it. */
  type Bit = bv6
  type Mask = set<Bit>

  datatype Folder = Folder(
    name: string, parent: Option<nat>, path: string, inherits: bool, retention: nat, deletedAt: Option<nat>)

  datatype File = File(
    name: string, folder: nat, path: string, storagePath: string, location: string,
    version: Option<nat>, metadata: Bytes, deletedAt: Option<nat>)

  datatype Version = Version(file: nat, name: string, hash: Bytes, user: nat)

  type Folders = map<nat, Folder>
  type Files = map<nat, File>
  type Versions = map<nat, Version>
  /** Explicit grants, keyed by (user, folder). */
  type Grants = map<(nat, nat), Mask>

  /** The tables with their AUTOINCREMENT counters, which never hand out an id twice. */
  datatype Database = Database(
    folders: Folders, files: Files, versions: Versions, grants: Grants,
    nextFolder: nat, nextFile: nat, nextVersion: nat)

  const ROOT: nat := 1

  predicate Live(fs: Folders, x: nat) { x in fs && fs[x].deletedAt == None }

  predicate LiveFile(files: Files, i: nat) { i in files && files[i].deletedAt == None }
}
