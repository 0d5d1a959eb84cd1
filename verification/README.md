# Mandala workspace server: a verified model

The server keeps a folder tree in a relational table. Each row has a parent pointer and a
*materialized path*, the decimal ids of its ancestors, each followed by `/`. Paths are printed by string
concatenation, rewritten in bulk with `LIKE prefix%` and `substr`, and parsed back to answer permission
queries. Files lie in folders; their versions are rows that point into content-addressable storage
through a hash. Users log in by signing a challenge, and requests are let in by session.

The model follows that structure in Dafny. Everything the server updates in place is a class
(`SqliteManager`, `FolderService`, `FileService`, `LocalStorage`, `CASRegistry`, `DeviceTable`,
`SessionManager`, `UserService`, `AuthInterceptor`), whose methods loop over rows where the SQL statements
do. Each method is proved equal to a function on the tables as a value (`MovedUnder`, `Deleted`, `Pruned`,
`Effective`, `CreateFolderStep`, ..., `LoginStep`, `VerifyStep`), and the properties are proved about
these functions and about all runs of them.

## The three parts

**Folder tree** (`Paths`, `Tree`, `Move`, `Delete`, `Parents`, `Permissions`, `Bitmask`, `Access`). Paths are real
strings. A rendered path is a string prefix of another exactly when the id lists are prefixes, so `1/2/`
never matches `1/20/`. From this: a move is plain re-parenting, a delete marks exactly the subtree, and the
path-parsing permission walk is the recursion over parent pointers.

The handler accepts a move of a folder into its own subtree. That breaks the tree, and the model keeps it:
the invariant `Indexed` says that each live folder is either placed where its path says, or has a path that
repeats the id of a folder that is cut off. It holds after every request, such moves included, and it is
strong enough to say exactly which folders the permission query still answers. `Parented` adds that a live
folder has a live parent and that the same placed folders lead to both, so a prefix update or delete treats
a folder as it treats its parent, cut off or not.

**File versions** (`Cas`, `Pipe`, `VersionRows`, `FileServices`, `Histories`). The stored versions of a
file are compared with the history of all its uploads. The pipe between the receive loop and the storage
provider is a small-step machine whose interleavings all store the same object.

**Sessions** (`Sessions`, `SessionRuns`). Challenges, their timers, devices and sessions form a state
machine with one atomic step per handler call, per timer and per passing of time.

`Runs` and `RunTheorems` join the first two parts: all handler calls in any order, from a fresh server.
`Replies` says which requests succeed, with which error the others fail, and what refused ones leave behind;
`Effects` says what each answered request does, in terms of the tables before and after it alone. `Names` says
when file names stay unique, `Readers` who can read a file that was moved. `WholeServer` runs both halves
together: the rights to register and revoke devices come from the folder tree. `Gateway` puts the interceptor
in front of it, so that requests carry headers and act for the user in the token. `Scenarios` holds concrete
runs that reach what the code gets wrong.

## Where the code differs from what one would expect

- A move into the own subtree is accepted, and locks the subtree for every user (`CyclicMoveLocksSubtree`,
  `CutOffForever`; two requests on a fresh server do it to the root, `MovedRootIsLocked`). The exact
  condition for a harmless move is `MoveServesAllIff`.
- `SetupAdmin` is not exempt from authentication, though nobody can authenticate before it ran; the client
  sends it without a token. So a fresh server never gets a device (`FreshServerStaysClosed`); it would exactly
  if the method were exempt (`FreshServerOpensIff`). What is said of the interceptor therefore starts from any
  state that calls of the handlers reach, with the interceptor or without; `AdmittedRequestActs` and
  `RevokedUserIsOut` are runs from such a state.
- Rights on the root decide about devices. A registered device can still be revoked exactly if the permission
  query answers on the root (`RevocableIff`, `RootDecidesDevices`; a run that loses it is in
  `DeviceOutlivesRoot`), and by requests exactly if some device can also get in (`RevocableByRequestIff`).
- `ModifyFile` tests no right on the target folder of a move. So a file moves to any live folder, and its
  readers are then those of that folder: `MoveOpensFileIff` says when the mover gains the file, with the run
  in `MoveOpensFile`.
- `MoveFolder` does not touch `files.path`. Exactly the live files in the moved subtree keep a stale path
  (`MoveLeavesFilePathsBehind`, with the run in `MovedFolderLeavesFilePath`); without folder moves paths
  never go stale (`RunWithoutMovesKeepsPaths`).
- `ModifyFile` renames before it looks up the target folder, so a refused request can leave the new name in
  place (`RefusedRenameSticks`). This is the only refusal with an effect (`RefusalLeavesNoTrace`).
- `UploadFile` refuses a name that is taken in the folder, `ModifyFile` does not check. Names stay unique
  exactly as long as no modification takes the name of another file (`NamesStayUniqueIff`, with the run in
  `RenameMakesTwins`).
- The file handlers test the plain bits. Only the folder and user handlers let the Admin bit pass every
  test, as the predicates `HasRight` and `Passes` say (`RightsDecide`, with the run in `AdminMayNotUpload`).
- The comments beside the versioning bits say 512, 1024, 2048; the constants are the bits 8, 9 and 10.
- The session is added before the token is made. A login answered with an error starts a session exactly
  if the signature was right and only the token was missing (`FailedLoginSession`, in any state, with the run
  in `TokenFailureLeavesSession`).

## Assumptions

- SHA-256, Ed25519, the challenge encoding and token decryption are arbitrary functions (`digest`,
  `verify`, `marshal`, `decrypt`). Only the download theorems assume something: no two *uploaded* contents
  share a digest.
- Each handler call is one atomic step, and so is each SQL statement or transaction.
- Clocks are parameters. Timers never fire early; `Punctual` says that none is late.
- One storage provider, the local one, is registered, under the scheme `file`.
- Masks are sets of bit positions. `Bitmask` proves that the walk over 64-bit words computes the same.

## Model

| member | source | states |
|---|---|---|
| Paths.ScanStr | server/internal/db/sqlite/permission.go:46-52 | scanning a printed id gives the id back, for every id |
| Paths.RenderPrefix | server/internal/db/sqlite/folder.go:185-189 | one rendered path is a string prefix of another exactly when its id list is a prefix of the other's |
| Paths.RenderReplacePrefix | server/internal/db/sqlite/folder.go:185-189 | new prefix plus `substr` of the old path is the rendering of the id list with its prefix replaced |
| Paths.ParseRender | server/internal/db/sqlite/permission.go:44-54 | trim, split and scan of a rendered path give back the same ids |
| Paths.PairKeyInjective | server/internal/grpc/session/session.go:25-29 | `user:device` keys of different pairs differ |
| Tree.AncestryIsPlaced | server/internal/db/sqlite/folder.go:153-201 | on a sound index the live ancestors by pointers are the ids in the path, for every folder that has them |
| Tree.RootedIffAncestry | server/internal/db/sqlite/permission.go:42-54 | path and pointers agree all the way up exactly when live pointers reach the root |
| Tree.CreateKeepsIndexed | server/internal/grpc/folder_service/create.go:45-55 | a created folder is placed below its parent, the index stays sound, no other folder gains or loses its place |
| Move.MoveRefinesReparenting | server/internal/db/sqlite/folder.go:153-201 | below f the new ancestors are those of plain re-parenting, and the rewritten path spells them |
| Move.MoveIndexesNewTree | server/internal/db/sqlite/folder.go:153-201 | after a move out of the subtree exactly the same folders reach the root, each with its path spelling its new ancestors |
| Move.MoveKeepsIndexed | server/internal/db/sqlite/folder.go:153-201 | a move to a target outside the subtree keeps the index sound and cuts off nothing |
| Move.CyclicMoveKeepsIndexed | server/internal/grpc/folder_service/manage.go:54-58 | a move into the own subtree still leaves only paths that are right or repeat a cut-off folder |
| Move.RootedAfterCyclicMove | server/internal/db/sqlite/folder.go:171-189 | such a move cuts off exactly f's old subtree |
| Move.CyclicHit | server/internal/db/sqlite/folder.go:171-189 | each path in f's old subtree then spells f twice, at stated positions |
| Move.MoveAndBack | server/internal/db/sqlite/folder.go:153-201 | moving f away and back to its parent restores every row of the table |
| Delete.DeleteKeepsEarlierMarks | server/internal/db/sqlite/folder.go:230-246 | deleted rows, stale paths included, keep their earlier deletion time |
| Delete.DeleteKeepsIndexed | server/internal/db/sqlite/folder.go:203-254 | the index stays sound, and a folder keeps its place exactly if f is not in its chain |
| Delete.DeleteKeepsHoused | server/internal/db/sqlite/folder.go:237-246 | no live file is left in a deleted folder, on any table whatsoever |
| Parents.PrefixFollowsParent | server/internal/db/sqlite/folder.go:185-189 | on every live folder, cut off ones included, `LIKE prefix%` holds exactly if the parent is f or has the prefix; where live pointers reach the root, exactly for the proper descendants of f |
| Parents.MoveFollowsParent | server/internal/db/sqlite/folder.go:183-189 | of every live folder but f, cut off or not, only the path can change, and it does exactly if the parent's does; where pointers reach the root, exactly below f, if f's does; folders not below f keep their ancestors |
| Parents.DeleteFollowsParent | server/internal/db/sqlite/folder.go:223-235 | every live folder but f, cut off or not, is deleted exactly if its parent is; where pointers reach the root, exactly the descendants of f |
| Parents.DeleteFollowsFolder | server/internal/db/sqlite/folder.go:237-246 | every live file of a live folder is deleted exactly if its folder is; where pointers reach the root, exactly in f and below |
| Parents.MoveKeepsParented | server/internal/db/sqlite/folder.go:153-201 | any accepted move, into the own subtree too, leaves each live folder with a live parent that the same placed folders lead to |
| Parents.DeleteKeepsParented | server/internal/db/sqlite/folder.go:203-254 | the same for a delete |
| Parents.CreateKeepsParented | server/internal/grpc/folder_service/create.go:45-55 | the same for a new folder |
| Permissions.GeneratePermission | server/internal/permission/permission.go:21-29 | the mask is the OR of the hierarchy and the ids are listed in order |
| Permissions.FoldFromAbove | server/internal/db/sqlite/permission.go:115-134 | what comes from above is added below, cut to Admin by any break |
| Permissions.BreakHidesAbove | server/internal/db/sqlite/permission.go:122-131 | below a break nothing above changes any bit but Admin |
| Permissions.FoldClosedForm | server/internal/db/sqlite/permission.go:115-134 | the walk is the OR from the last break on, plus Admin if any folder of the chain grants it |
| Permissions.AdminOfAny | server/internal/db/sqlite/permission.go:118-131 | the OR has the Admin bit exactly when some mask has it |
| Permissions.FoldWithoutBreak | server/internal/permission/permission.go:21-29 | without a break above the root the walk is GeneratePermission's OR |
| Permissions.FoldMonotone | server/internal/db/sqlite/permission.go:115-134 | larger masks never lose a bit, whatever the breaks |
| Bitmask.HasIsInclusion | server/internal/permission/permission_bitmask.go:46-49 | `Has` with any target word is inclusion of the bit sets |
| Bitmask.PermConstants | server/internal/permission/permission_bitmask.go:11-42 | the words of the permission constants encode the sets used here |
| Bitmask.AddIsUnion | server/internal/permission/permission_bitmask.go:51-54 | `Add` on words is union of the bit sets |
| Bitmask.RemoveIsDifference | server/internal/permission/permission_bitmask.go:56-59 | `Remove` on words is difference of the bit sets |
| Bitmask.WordFoldEncodes | server/internal/db/sqlite/permission.go:115-134 | the walk over uint64 words computes the word of the walk over bit sets, for every chain |
| Access.QueryIsTreeWalk | server/internal/db/sqlite/permission.go:31-138 | the query answers exactly for folders whose live pointers reach the root, with the recursion over these pointers |
| Access.CountOfChain | server/internal/db/sqlite/permission.go:68-81 | the row count reaches the chain's length exactly when the ids are distinct and all live |
| Access.CyclicMoveLocksSubtree | server/internal/db/sqlite/permission.go:70-81 | after a move into the own subtree the query fails for every user on exactly that subtree |
| Access.MoveServesAllIff | server/internal/grpc/folder_service/manage.go:47-58 | every folder stays answerable exactly when the target is neither f nor below f |
| Access.MoveKeepsAccessOutside | server/internal/db/sqlite/folder.go:153-201 | a move changes no effective mask outside the moved subtree |
| Access.MoveRebasesAccess | server/internal/db/sqlite/folder.go:153-201 | inside it the walk from f down continues from the target's mask instead of the old parent's |
| Access.BreakShieldsFromMove | server/internal/db/sqlite/permission.go:122-131 | behind a break at or below f only the Admin bit can change by the move |
| Access.GrantKeepsOthers | server/internal/db/sqlite/permission.go:140-151 | a grant changes nothing for other users and outside the subtree |
| Access.BreakShieldsFromGrant | server/internal/db/sqlite/permission.go:140-151 | below a later break a grant changes only the Admin bit |
| Access.GrantMonotone | server/internal/db/sqlite/permission.go:140-151 | enlarging a mask removes no bit from anybody anywhere, and no answer |
| Access.CreateKeepsAccess | server/internal/grpc/folder_service/create.go:45-69 | creating a folder changes no existing folder's effective mask |
| Access.CreateSnapshotsAccess | server/internal/grpc/folder_service/create.go:56-69 | on the new folder the creator has the parent's mask; others have it too, or only its Admin bit if inheritance is off |
| SqliteManagers.SqliteManager.EnsureRootFolder | server/internal/db/sqlite/folder.go:12-32 | row 1 is inserted once, with an empty path |
| SqliteManagers.SqliteManager.CreateFolder | server/internal/db/sqlite/folder.go:45-66 | one new row under a fresh id, nothing else |
| SqliteManagers.SqliteManager.MoveFolder | server/internal/db/sqlite/folder.go:153-201 | the whole table after both UPDATE statements, row by row, and the refusal of deleted folders |
| SqliteManagers.SqliteManager.SoftDeleteFolder | server/internal/db/sqlite/folder.go:203-254 | both tables after the three UPDATE statements |
| SqliteManagers.SqliteManager.MarkFolders | server/internal/db/sqlite/folder.go:230-235 | the loop marks exactly the live rows with the prefix |
| SqliteManagers.SqliteManager.MarkFiles | server/internal/db/sqlite/folder.go:237-246 | the loop marks the live files in f and in any row, live or deleted, with the prefix |
| SqliteManagers.SqliteManager.SetRetentionPolicy | server/internal/db/sqlite/folder.go:98-107 | one column of one row |
| SqliteManagers.SqliteManager.GetUserEffectivePermissions | server/internal/db/sqlite/permission.go:31-138 | the method's loops compute the query function that QueryIsTreeWalk ties to the tree |
| SqliteManagers.SqliteManager.CollectIds | server/internal/db/sqlite/permission.go:46-52 | the ids of the non-empty parts in order |
| SqliteManagers.SqliteManager.FetchInheritance | server/internal/db/sqlite/permission.go:61-76 | each live folder of the chain counted once, with its flag |
| SqliteManagers.SqliteManager.FetchPermissions | server/internal/db/sqlite/permission.go:83-99 | exactly the user's grants on the chain |
| SqliteManagers.SqliteManager.WalkChain | server/internal/db/sqlite/permission.go:115-134 | the loop with its break branch is the fold over the chain |
| SqliteManagers.SqliteManager.SetUserPermission | server/internal/db/sqlite/permission.go:140-151 | upsert of one grant |
| SqliteManagers.SqliteManager.CreateFile | server/internal/db/sqlite/file.go:46-64 | one new file row without a version |
| SqliteManagers.SqliteManager.CreateVersion | server/internal/db/sqlite/file.go:116-134 | one new version row under a fresh id |
| SqliteManagers.SqliteManager.UpdateFileVersion | server/internal/db/sqlite/file.go:136-147 | pointer, locator and location of one row |
| SqliteManagers.SqliteManager.DeleteOldVersions | server/internal/db/sqlite/file.go:174-223 | of this file only the N newest rows stay; N = 0 and an empty list delete nothing |
| SqliteManagers.SqliteManager.SoftDeleteFile | server/internal/db/sqlite/file.go:225-233 | the deletion time of one row |
| SqliteManagers.SqliteManager.MoveFile | server/internal/db/sqlite/file.go:245-253 | folder and path of one row |
| SqliteManagers.SqliteManager.GetFileByName | server/internal/db/sqlite/file.go:91-114 | a live row of that name in the folder, or none exactly if there is none |
| VersionRows.NumberOfName | server/internal/grpc/file_service/upload.go:228-239 | the number scanned from `vN` is N |
| VersionRows.MaxNumber | server/internal/grpc/file_service/upload.go:224-238 | the loop finds the largest version number of the file, 0 if there is none |
| VersionRows.NewestIds | server/internal/db/sqlite/file.go:180-200 | the ids kept are those with fewer than N newer rows |
| VersionRows.PruneKeepsSuffix | server/internal/db/sqlite/file.go:174-223 | pruning an increasing run of ids keeps its last N, unchanged |
| FolderServices.PermissionManager.HasPermission | server/internal/permission/permission_manager.go:32-46 | error if the query fails, otherwise the test with Admin bypass |
| FolderServices.PermissionManager.CheckPermission | server/internal/permission/permission_manager.go:18-30 | nil fails, Admin passes, otherwise all target bits are needed |
| FolderServices.FolderService.CreateFolder | server/internal/grpc/folder_service/create.go:17-84 | checks, path, insert and snapshot as one step with its reply |
| FolderServices.FolderService.MoveFolder | server/internal/grpc/folder_service/manage.go:17-66 | both permission checks, then the move below any live target |
| FolderServices.FolderService.DeleteFolder | server/internal/grpc/folder_service/manage.go:68-96 | the check, then the delete |
| Cas.DecodeEncode | server/internal/grpc/file_service/upload.go:131-134 | lowercase base16 (section 8 of RFC 4648) is decoded to the same bytes |
| Cas.UriRoundTrip | server/internal/storage/registry.go:32-66 | the printed locator is parsed into its scheme and its hash |
| Cas.StoreIsIdempotent | server/internal/storage/local.go:64-71 | a repeated store leaves the store unchanged; a store keeps all objects, each under its own hash |
| Cas.RetrieveStored | server/internal/storage/local.go:88-103 | without collisions the locator of stored bytes retrieves exactly these bytes |
| Cas.LocalStorage.Store | server/internal/storage/local.go:43-86 | the copy loop installs the whole content under its hash, or nothing if the reader fails |
| Cas.CASRegistry.StoreInDefault | server/internal/storage/registry.go:70-87 | the locator of what was stored; an unknown scheme or failed reader stores nothing |
| Cas.CASRegistry.RetrieveByURI | server/internal/storage/registry.go:55-67 | for any registered providers, the object named by scheme and last part of the locator |
| Pipe.EveryInterleavingStores | server/internal/grpc/file_service/upload.go:24-63 | for every chunking and interleaving the stored object is the concatenation, and a failed stream stores nothing |
| Pipe.UploadProgresses | server/internal/grpc/file_service/upload.go:34-56 | with a provider that reads to the end no interleaving is stuck or endless |
| FileServices.FileService.UploadFile | server/internal/grpc/file_service/upload.go:65-166 | checks, store, file row, first version and link as one step with its reply |
| FileServices.FileService.UploadVersion | server/internal/grpc/file_service/upload.go:168-273 | checks, store, next name, pointer and pruning as one step with its reply |
| FileServices.FileService.DownloadFile | server/internal/grpc/file_service/download.go:21-98 | choice of the locator and the bytes sent |
| FileServices.FileService.FindVersionUri | server/internal/grpc/file_service/download.go:47-66 | the search loop finds the version of this file or none |
| FileServices.FileService.SendInChunks | server/internal/grpc/file_service/download.go:76-94 | the chunks sent concatenate to the content, each of at most 32 KiB |
| FileServices.FileService.ModifyFile | server/internal/grpc/file_service/metadata.go:20-110 | rename, move and metadata in order, a missing target after the rename |
| FileServices.FileService.SetRetentionPolicy | server/internal/grpc/file_service/metadata.go:160-186 | the Admin test and one column |
| FileServices.FileService.DeleteFile | server/internal/grpc/file_service/metadata.go:188-220 | the test and the deletion time |
| Histories.NextNumberCounts | server/internal/grpc/file_service/upload.go:224-239 | the next version number is one more than all uploads so far, whatever was pruned |
| Histories.RecordNext | server/internal/grpc/file_service/upload.go:219-257 | one more upload keeps rows, names, pointer and history in step |
| Histories.SameNameSameRow | server/internal/grpc/file_service/upload.go:224-239 | one name is one row, also between an earlier and a later table |
| Runs.RunKeepsInv | server/internal/grpc/folder_service/manage.go:17-96 | the index, the files' folders, the version histories and the stored objects stay sound in every run |
| RunTheorems.EveryRunAnswersByTheTree | server/internal/db/sqlite/permission.go:31-138 | in every run, cyclic moves included, the query equals the pointer recursion exactly where the root is reached |
| RunTheorems.AcyclicRunServesAll | server/internal/db/sqlite/permission.go:31-138 | at every point of a run each live folder is answered for every user, exactly if the run accepts no move into the own subtree |
| RunTheorems.EveryRunKeepsLiveParents | server/internal/db/sqlite/folder.go:203-254 | in every run, moves into the own subtree included, each live folder but the root has a live parent |
| RunTheorems.CutOffForever | server/internal/db/sqlite/permission.go:70-81 | a folder once cut off or deleted is never answered again, whatever follows |
| RunTheorems.EveryRunHousesFiles | server/internal/db/sqlite/folder.go:237-246 | in every run each live file lies in a live folder |
| RunTheorems.EveryRunKeepsVersionSuffix | server/internal/grpc/file_service/upload.go:224-257 | in every run the stored versions are the contiguous suffix of the uploads, named by position, and the pointer is the newest |
| RunTheorems.UploadVersionCount | server/internal/grpc/file_service/upload.go:252-257 | after an upload under retention N there are min(previous + 1, N) versions, or one more if N is 0 |
| RunTheorems.NamesAreNeverReused | server/internal/grpc/file_service/upload.go:224-239 | in every run equal version names of a file are the same version, even across pruning |
| RunTheorems.DownloadReturnsUpload | server/internal/grpc/file_service/download.go:46-94 | in every run a stored version downloads as its upload |
| RunTheorems.LatestIsCurrent | server/internal/grpc/file_service/download.go:46-66 | in every run the download without a version, and that of the current version, are the newest upload |
| RunTheorems.DownloadSurvives | server/internal/grpc/file_service/download.go:46-94 | the same bytes after any further requests, as long as the version is stored |
| RunTheorems.MoveLeavesFilePathsBehind | server/internal/db/sqlite/folder.go:183-189 | after any accepted move a live file's path spells its folder exactly if the move keeps f's path or the folder is neither f nor rewritten; for folders that reach the root the latter is f's subtree |
| RunTheorems.RunWithoutMovesKeepsPaths | server/internal/grpc/file_service/metadata.go:71-77 | without folder moves the path of every live file stays that of its folder |
| Replies.RightsDecide | server/internal/permission/permission_manager.go:32-46 | in every run a request succeeds exactly if the rights that flow down the tree, and the stated facts of the tables, allow it |
| Replies.RefusalLeavesNoTrace | server/internal/grpc/file_service/metadata.go:55-77 | a refused request changes nothing, except exactly for a rename with a missing target folder |
| Replies.DownloadServes | server/internal/grpc/file_service/download.go:30-73 | in every run a download succeeds exactly for readers and stored versions, and fails with the stated code otherwise |
| Replies.RepliesByTree | server/internal/grpc/folder_service/manage.go:25-62 | in every run the reply of each request, error code included, is the one the tree and the rights that flow down it call for |
| Effects.CreateFolderEffect | server/internal/grpc/folder_service/create.go:17-84 | an answered creation adds one row under the parent with the path of its ancestors; the creator has the parent's mask there, others too or its Admin bit; no other answer, grant or table changes |
| Effects.MoveFolderEffect | server/internal/grpc/folder_service/manage.go:17-66 | an answered move writes parent and paths only: paths follow parents, the new tree is indexed and loses nobody, or, into the own subtree, loses exactly that |
| Effects.DeleteFolderEffect | server/internal/grpc/folder_service/manage.go:68-96 | an answered delete marks exactly f and its descendants, cut-off folders with their parents and files with their folders, with this time, and changes nothing else |
| Effects.GrantEffect | server/internal/db/sqlite/permission.go:140-151 | the grant replaces the mask under its key only; the effective mask is then what the parent passes on plus the new mask |
| Effects.LastGrantCounts | server/internal/db/sqlite/permission.go:142-146 | of two grants on one key only the last one counts |
| Effects.SetRetentionEffect | server/internal/grpc/file_service/metadata.go:160-186 | an answered policy is in the folder's row, and nothing else changes |
| Effects.RetentionPrunes | server/internal/grpc/file_service/upload.go:252-257 | after an answered policy n > 0 the next upload in the folder leaves min(previous + 1, n) versions |
| Effects.UploadFileEffect | server/internal/grpc/file_service/upload.go:65-166 | an answered upload adds exactly this file row, its row v1 with the hash and the uploader, and the content under its hash |
| Effects.UploadVersionEffect | server/internal/grpc/file_service/upload.go:168-273 | an answered further upload adds the row named by the number of uploads so far and the content, moves pointer and locator, and removes rows of this file only |
| Effects.ModifyFileEffect | server/internal/grpc/file_service/metadata.go:20-110 | an answered modification writes name, folder with path, and metadata as asked, keeps the other columns and rows, and replies with the row |
| Effects.DeleteFileEffect | server/internal/grpc/file_service/metadata.go:188-220 | an answered file deletion marks this file with this time and changes nothing else |
| Readers.MoveNeedsNothingThere | server/internal/grpc/file_service/metadata.go:43-77 | in every run a file move succeeds exactly with PERM_RENAME where the file is and a live target; no right on the target counts |
| Readers.MovedFileFollowsTarget | server/internal/grpc/file_service/metadata.go:64-77 | after a file move exactly the readers of the target can download it, whoever moved it |
| Readers.MoveOpensFileIff | server/internal/grpc/file_service/metadata.go:43-77 | a user turns a refused download into a successful one by a move, exactly with PERM_RENAME and without PERM_READ where the file is, and PERM_READ on the target |
| Names.NamesStayUniqueIff | server/internal/grpc/file_service/metadata.go:55-77 | a request keeps file names unique in each folder exactly if it is no modification that takes the name of another file |
| Names.RunKeepsNamesUnique | server/internal/grpc/file_service/upload.go:97-101 | in every run without such a modification names are unique in each folder |
| Scenarios.MovedRootIsLocked | server/internal/grpc/folder_service/manage.go:47-58 | a concrete run: the root is moved under itself, and no user gets an answer on any folder |
| Scenarios.MovedFolderLeavesFilePath | server/internal/db/sqlite/folder.go:174-189 | a concrete run: a folder is moved and its file keeps the old path |
| Scenarios.MoveOpensFile | server/internal/grpc/file_service/metadata.go:43-77 | a concrete run: a download is refused, and succeeds after the same user moved the file |
| Scenarios.SmallerMaskEndsReading | server/internal/db/sqlite/permission.go:142-146 | a concrete run: a smaller mask replaces a larger one, and a download that succeeded is refused |
| Scenarios.RefusedRenameSticks | server/internal/grpc/file_service/metadata.go:55-70 | a concrete run in which a refused request renames the file |
| Scenarios.RenameMakesTwins | server/internal/grpc/file_service/metadata.go:55-62 | a concrete run that ends with two live files of one name in one folder |
| Scenarios.AdminMayNotUpload | server/internal/grpc/file_service/upload.go:86-95 | a concrete run: the Admin bit lets a user create folders and not upload |
| Sessions.DeviceTable.GetDevicePublicKey | server/internal/db/sqlite/user.go:10-30 | the key of a device of this user that is not revoked |
| Sessions.DeviceTable.RegisterDevice | server/internal/db/sqlite/user.go:66-87 | one new row under a fresh id |
| Sessions.DeviceTable.RevokeDevice | server/internal/db/sqlite/user.go:89-102 | the revocation time of this one device, if it has none |
| Sessions.SessionManager.AddSession | server/internal/grpc/session/session.go:24-29 | the set of pairs behind the keys gains this pair |
| Sessions.SessionManager.RemoveSession | server/internal/grpc/session/session.go:31-36 | the set loses this pair and no other |
| Sessions.SessionManager.IsSessionActive | server/internal/grpc/session/session.go:38-49 | key lookup is membership of the pair |
| Sessions.UserService.LoginUser | server/internal/grpc/user_service/auth.go:19-54 | checks, cache entry and timer as one step with its reply |
| Sessions.UserService.Expire | server/internal/grpc/user_service/auth.go:48-50 | the timer removes its own entry only |
| Sessions.UserService.VerifyLoginSignature | server/internal/grpc/user_service/auth.go:57-100 | the challenge is consumed before the key is fetched and the signature checked |
| Sessions.UserService.RegisterDevice | server/internal/grpc/user_service/management.go:106-135 | the permission test on folder 1, then the row |
| Sessions.UserService.RevokeDevice | server/internal/grpc/user_service/management.go:138-170 | the Admin test, then row and session |
| Sessions.AuthInterceptor.IsUnauthenticatedMethod | server/internal/grpc/interceptors/auth.go:47-55 | the loop decides membership in the list |
| Sessions.AuthInterceptor.Authenticate | server/internal/grpc/interceptors/auth.go:124-157 | the reply for each header, and that accepted claims are an active pair |
| Sessions.AuthInterceptor.Intercept | server/internal/grpc/interceptors/auth.go:69-93 | the handler runs exactly for listed methods and authenticated requests, and has claims only in the second case |
| SessionRuns.RunKeepsInv | server/internal/grpc/user_service/auth.go:19-100 | cache, timers, log and sessions stay sound in every run |
| SessionRuns.EveryRunActivatesByChallenge | server/internal/grpc/user_service/auth.go:69-90 | a session is active exactly for registered, unrevoked, logged-in devices; each login proved a challenge issued to it, used once |
| SessionRuns.AcceptedMeansLoggedIn | server/internal/grpc/interceptors/auth.go:124-157 | a request is let in exactly if its token names such a device |
| SessionRuns.RevokedForever | server/internal/grpc/user_service/management.go:158-166 | after a revocation no challenge, session or request of the device succeeds in any later state |
| SessionRuns.FailedLoginSession | server/internal/grpc/user_service/auth.go:57-100 | in any state a login answered with an error starts a session exactly if the signature proves and the token is missing, and touches no other session |
| SessionRuns.TokenFailureLeavesSession | server/internal/grpc/user_service/auth.go:90-96 | a concrete run: the login replies with an error and the session is active |
| SessionRuns.EveryRunTimesChallenges | server/internal/grpc/user_service/auth.go:44-50 | each cached challenge has a pending timer of its own, due three minutes after issue |
| SessionRuns.PunctualChallengesExpire | server/internal/grpc/user_service/auth.go:48-50 | with timers on time no challenge is kept or used after three minutes |
| SessionRuns.ChallengeSurvives | server/internal/grpc/user_service/auth.go:48-50 | for three minutes only the device's own login or verification removes its challenge, whichever other timers go off |
| SessionRuns.TimelySignatureLogsIn | server/internal/grpc/user_service/auth.go:57-100 | signing the timestamp from the login reply within three minutes gets token and session, and is refused when repeated |
| SessionRuns.LoginEffect | server/internal/grpc/user_service/auth.go:32-53 | in every run an answered login replies with the time whose challenge it cached, under an unused serial and with its own timer, and changes nothing else |
| SessionRuns.LoginRefused | server/internal/grpc/user_service/auth.go:21-30 | in every run a login is refused exactly for zero ids or a device that is unknown or revoked, with these codes, and then changes nothing |
| SessionRuns.VerifyReplies | server/internal/grpc/user_service/auth.go:59-100 | which reply a verification gets in any state: for malformed input, a missing challenge or bad signature, an unknown device, a missing token, and success |
| SessionRuns.FireEffect | server/internal/grpc/user_service/auth.go:48-50 | in every run a due timer takes exactly the entry it was made for, if still cached, and itself |
| SessionRuns.AttemptConsumes | server/internal/grpc/user_service/auth.go:69-87 | any verification with ids and a signature, answered or not, uses up the challenge of the device and no other one |
| SessionRuns.OneAttemptPerChallenge | server/internal/grpc/user_service/auth.go:69-90 | in every run, after one attempt each further one is refused and changes nothing, until the device asks for a new challenge |
| SessionRuns.SessionHasCause | server/internal/grpc/user_service/auth.go:69-90 | over any run that leaves the devices as they are, a session was there before, or the challenge cached before or one issued since was signed |
| WholeServer.RunProjects | server/internal/grpc/user_service/management.go:106-170 | each half of a run of the whole server is a run of that half, with the rights the folder tree gives to device calls |
| WholeServer.RightsDecideRegister | server/internal/grpc/user_service/management.go:115-134 | in every run a registration succeeds exactly for callers with the setup right or Admin at the root, and adds this device only; otherwise nothing changes |
| WholeServer.RightsDecideRevoke | server/internal/grpc/user_service/management.go:147-169 | in every run a revocation succeeds exactly for Admins of the root, and then writes the time into this device's row and ends its session only; otherwise nothing changes |
| WholeServer.RevocableIff | server/internal/grpc/user_service/management.go:146-166 | in every run a registered device can still be revoked by further calls exactly if the permission query answers on the root |
| WholeServer.RootDecidesDevices | server/internal/grpc/user_service/management.go:114-166 | in every run, all further calls leave the devices and open sessions as they are exactly if the permission query fails on the root |
| WholeServer.DeviceOutlivesRoot | server/internal/grpc/user_service/management.go:146-166 | a concrete run after which a registered device stays unrevoked in every later state |
| Gateway.ServeProjects | server/internal/grpc/interceptors/auth.go:69-93 | from any state, what the interceptor lets through is a run of the whole server |
| Gateway.NeedsClaimsByMethod | server/internal/grpc/interceptors/auth.go:24-55 | a call needs claims exactly if its method is not on the list of exempt methods |
| Gateway.BearerOrBare | server/internal/grpc/interceptors/auth.go:137-141 | a token is read alike with the Bearer prefix and bare |
| Gateway.EffectNeedsDevice | server/internal/grpc/interceptors/auth.go:124-157 | in every reachable state a request that needs claims is let in exactly if its token names a registered, unrevoked device that has logged in; it then acts for that user, and otherwise changes nothing |
| Gateway.UserWithoutDeviceIsOut | server/internal/grpc/user_service/management.go:158-166 | from every reachable state in which all devices of a user are revoked, no request of the user changes anything, until a registration for the user is requested |
| Gateway.EverOpenIff | server/internal/grpc/user_service/auth.go:19-100 | somebody is ever let in exactly if, now, some token names an unrevoked device with a session, with a cached challenge that has a valid signature, or with one for a challenge yet to come |
| Gateway.FreshServerOpensIff | server/internal/grpc/user_service/management.go:19-64 | for every list of exempt methods, a fresh server ever gets a device exactly if SetupAdmin is in the list, whatever the guarded handlers do |
| Gateway.FreshServerStaysClosed | server/internal/grpc/interceptors/auth.go:24-28 | with the list in the code, a fresh server has no device after any messages, lets nobody in, and a SetupAdmin request changes nothing |
| Gateway.AdmittedRequestActs | server/internal/grpc/interceptors/auth.go:69-93 | a concrete run: a request is let in and creates a folder for the user in the token |
| Gateway.RevokedUserIsOut | server/internal/grpc/user_service/management.go:158-166 | a concrete run: a user revokes the last device, and the same request does nothing in any later state |
| Gateway.RevocableByRequestIff | server/internal/grpc/user_service/management.go:138-166 | in every reachable state a registered device can still be revoked by requests exactly if the query answers on the root and, now, some token names a device that is logged in or can still log in |

## Left out

- PostgreSQL: the same statements with other placeholders.
- The SQL engine, drivers and I/O failures; the refusal of uint64 masks with bit 63 by the driver. `LIKE` is a plain prefix test, since paths hold digits and `/` only. Foreign keys appear only where a grant needs its folder.
- Interleaving inside a handler, for example between `Load` and `Delete` of a challenge: steps are atomic.
- A provider that fails before it reads, and an unknown default scheme: the writer of the pipe then waits forever.
- `Sscanf` on signs, spaces and overflow, and ids beyond uint64: paths and version names hold digits that the server printed itself.
- `url.Parse` errors other than those of the scheme, and path cleaning by `filepath.Join`: locators are printed by the server itself.
- Re-hashing on `Retrieve`: the code only opens the file. `Exists`, `Delete` and the S3 backend are not modelled.
- Columns that no property reads: creation and update times, version comments and metadata, folder metadata. `ListFolders`, `ListFiles` and `ListVersions` as replies.
- Missing claims and malformed first messages of a stream: handlers get the caller's id, and uploads start after the metadata message.
- Version rows when `ListVersions` fails: the code ignores the error.
- `SetupAdmin` and `CreateUser` as steps of runs: runs start from a seeded root folder, and `Grant` is a step of the environment. Only the results on fresh servers know `SetupAdmin`. Users are not rows, so a device can be registered for any user id.
- Redis, Merkle roots, quotas and locks: described in the documents, absent from the code.
- gRPC plumbing, TLS, configuration, key handling and the desktop client.
- AuthInterceptor: the stream interceptor is the unary one with another context type, and the list of unauthenticated methods is a field instead of a package variable.
- SqliteManager: the row loops visit rows in any order, as SQL does. Device rows are in a class of their own.
