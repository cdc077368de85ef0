# filebrowser core, modelled in Dafny

A model of the server-side directory listing, the authorization guard, and
the client-side state of a web file browser (a Nuxt/Vue front end with a tRPC
back end). It covers:

- **`fs.get`** (`FsRouter`): resolve the requested path (`/` when omitted),
  read the directory, and return the names of its sub-directories and of its
  files in `readdir` order. A failed read throws exactly one tRPC error:
  `EACCES` gives FORBIDDEN, any other `Error` gives NOT_FOUND, and a thrown
  non-`Error` gives INTERNAL_SERVER_ERROR.
- **`authorizedProcedure`** (`Trpc`): a protected procedure runs only when the
  request's session has a user. Otherwise it throws FORBIDDEN
  "Unauthenticated".
- **The pending-action store** (`FullFileBrowsers`): four refs that
  `initAction` overwrites wholesale. `startPendingAction` does nothing.
- **The reusable-state proxy** (`ReusableState`): reads unwrap refs. Writes go
  into the existing ref cell, which the composable's closures share, or else
  replace the property.
- **The renaming and deletion dialogs** (`RenamingModal`, `DeletionModal`):
  the refs of each composable, `handleRename` (which pre-fills the item's
  leaf name), `closeDeletionModal`, and each composable wrapped in the proxy.

Refs are modelled as heap cells (class `Ref`). Each composable is a class
whose `const` fields are the refs its closures capture. The proxied object is
a map from property names to either a ref cell or a plain value. The file
system is not modelled: `path.resolve` and `fs.readdir` are function
parameters of `Get`, so the listing and error properties hold for any file
system.

The code stages only `copy | move | hard_link`, `startPendingAction` has an
empty body, and the router defines only `get`.

## Model

| member | source | states |
|---|---|---|
| Trpc.HasUser | server/trpc/trpc.ts:26 | exactly two contexts lack a user: no session, and a session without a user |
| Trpc.AuthorizedProcedure | server/trpc/trpc.ts:25-34 | without a session user the result is a FORBIDDEN "Unauthenticated" throw; with one it is exactly what `next` produced |
| Trpc.NoSessionIsRefused | server/trpc/trpc.ts:26-31 | a request with no session is refused with the Unauthenticated error |
| Trpc.SessionWithoutUserIsRefused | server/trpc/trpc.ts:26-31 | a session without a user is refused with the same error |
| Trpc.RefusalIgnoresNext | server/trpc/trpc.ts:25-34 | when the guard refuses, the protected procedure has no influence on the outcome (it is not run) |
| FsRouter.IsError | server/trpc/routers/fs.router.ts:7-9 | a thrown value is an `Error` exactly when it is not a non-`Error` value |
| FsRouter.Directories | server/trpc/routers/fs.router.ts:24-26 | `directories` has one name per directory entry, each that entry's name, in `readdir` order |
| FsRouter.Files | server/trpc/routers/fs.router.ts:28-30 | `files` has one name per file entry, each that entry's name, in `readdir` order |
| FsRouter.NamesOfKind | server/trpc/routers/fs.router.ts:24-30 | the filter-then-map chain lists at most as many names as there are entries |
| FsRouter.KindPositions | server/trpc/routers/fs.router.ts:24-30 | reference filter: the strictly increasing, in-range positions of exactly the entries of the given kind |
| FsRouter.NamesOfKindAppend | server/trpc/routers/fs.router.ts:24-30 | the listing of a concatenation is the concatenation of the listings (order is kept) |
| FsRouter.NamesOfKindAtPositions | server/trpc/routers/fs.router.ts:24-30 | the listed names are exactly the names at the positions of the matching entries, in the same order |
| FsRouter.DirectoriesAndFilesFollowReaddirOrder | server/trpc/routers/fs.router.ts:24-30 | `directories` is exactly the directory entries' names and `files` exactly the file entries' names, both in `readdir` order |
| FsRouter.NoEntryInBothLists | server/trpc/routers/fs.router.ts:24-30 | no entry position feeds both lists, and a symlink, device, FIFO or socket feeds neither |
| FsRouter.NamesOfKindMembership | server/trpc/routers/fs.router.ts:24-30 | a name is listed exactly when some entry of that kind carries it |
| FsRouter.ListsCoverOnlyDirectoriesAndFiles | server/trpc/routers/fs.router.ts:24-30 | the two lists together are never longer than the entries, and are as long exactly when every entry is a directory or a file |
| FsRouter.Classify | server/trpc/routers/fs.router.ts:37-61 | FORBIDDEN exactly for an `Error` with code EACCES, NOT_FOUND exactly for any other `Error`, INTERNAL_SERVER_ERROR exactly for a non-`Error`; fixed message per code; the thrown value is the cause |
| FsRouter.Get | server/trpc/routers/fs.router.ts:18-62 | returns a listing exactly when `readdir` of the resolved path succeeds, with `fullPath` the resolved input path; otherwise throws the classified error |
| FsRouter.GetProcedure | server/trpc/routers/fs.router.ts:12-18 | `get` sits behind `authorizedProcedure`: anonymous callers get the Unauthenticated error, signed-in callers the query's result |
| FsRouter.OmittedPathListsRoot | server/trpc/routers/fs.router.ts:13-19 | an omitted path behaves exactly like `/` |
| FsRouter.PermissionDeniedIsForbidden | server/trpc/routers/fs.router.ts:39-45 | an EACCES failure throws FORBIDDEN 'EACCESS: permission denied' |
| FsRouter.OtherErrorIsNotFound | server/trpc/routers/fs.router.ts:38-52 | an `Error` with any other code, or none, throws NOT_FOUND 'Directory does not exist' |
| FsRouter.NonErrorIsInternal | server/trpc/routers/fs.router.ts:54-60 | a thrown non-`Error` throws INTERNAL_SERVER_ERROR 'Failed to read directory' |
| FsRouter.FailureAlwaysThrowsOneOfThree | server/trpc/routers/fs.router.ts:37-61 | a failed read never returns a listing; it throws one error caused by the thrown value, with one of the three messages |
| FsRouter.AnonymousCallerNeverReadsTheDisk | server/trpc/routers/fs.router.ts:12-22 | for an anonymous caller the outcome does not depend on the file system, and it is a throw |
| ReusableState.Proxy.constructor | composables/useReusableState.ts:17 | the proxy's target is the composable's object; it is held as a map value, which is unobservable because nothing else holds that object |
| ReusableState.Proxy.HoldsRef | composables/useReusableState.ts:25 | `isRef(target[prop])`: a property that holds a ref holds one of the proxy's cells; an absent property holds none |
| ReusableState.Proxy.Get | composables/useReusableState.ts:18-21 | a ref property reads as the ref's current value, a plain property as itself, a property the object does not own as `undefined` |
| ReusableState.Proxy.Set | composables/useReusableState.ts:23-34 | reports success; a ref property keeps its cell and the cell takes the value; any other property is replaced; reading back gives the value; other cells and non-aliased properties are unchanged; a property sharing the cell reads the new value |
| RenamingModal.StripTrailingSlashes | composables/useRenamingModal.ts:10-13 | result is the longest prefix not ending in `/`, and only separators were removed |
| RenamingModal.LastComponent | composables/useRenamingModal.ts:10-13 | result is the suffix after the last `/`, and contains no `/` |
| RenamingModal.Leaf | composables/useRenamingModal.ts:10-13 | the leaf name `name + ext` contains no `/` |
| RenamingModal.LeafOfJoin | composables/useRenamingModal.ts:10-13 | the leaf of `dir/name` followed by any number of `/` is `name` |
| RenamingModal.LeafIdempotent | composables/useRenamingModal.ts:10-13 | the leaf of a leaf is itself |
| RenamingModal.AfterRename | composables/useRenamingModal.ts:9-16 | after renaming starts the dialog is open, the source is the path verbatim, and the new name has no `/` |
| RenamingModal.RenameIgnoresKind | composables/useRenamingModal.ts:9-15 | the item's `type` tag has no influence |
| RenamingModal.RenamePrefillsListedName | composables/useRenamingModal.ts:10-13 | an item listed as `name` in `dir` is pre-filled with `name` |
| RenamingModal.RenamingModal.constructor | composables/useRenamingModal.ts:4-7 | a fresh run starts closed with empty name and source, in three distinct fresh cells |
| RenamingModal.RenamingModal.HandleRename | composables/useRenamingModal.ts:9-16 | the three refs hold the open flag, the leaf name and the path, independently of the prior state (so the call is idempotent) |
| RenamingModal.ProxiedObject | composables/useRenamingModal.ts:18-23 | the returned object exposes exactly the three refs `handleRename` writes, and `handleRename` is its only plain property |
| RenamingModal.UseRenamingModal | composables/useReusableState.ts:14-17 | each call runs the composable afresh (fresh cells, no shared state) and proxies its returned object; reads start closed and empty |
| RenamingModal.RenameThroughProxy | composables/useReusableState.ts:18-21 | what `handleRename` writes into its refs is what the proxy then reads |
| DeletionModal.DeletionModal.constructor | composables/useDeletionModal.ts:1-3 | a fresh run starts closed with an empty path, in two distinct fresh cells |
| DeletionModal.DeletionModal.CloseDeletionModal | composables/useDeletionModal.ts:5-8 | afterwards the dialog is closed and the path empty, whatever the prior state (so the call is idempotent) |
| DeletionModal.ProxiedObject | composables/useDeletionModal.ts:10-14 | the returned object exposes exactly the two refs `closeDeletionModal` writes, and `closeDeletionModal` is its only plain property |
| DeletionModal.UseDeletionModal | composables/useDeletionModal.ts:1-15 | each call gets fresh cells wrapped in the proxy; reads start closed and empty |
| DeletionModal.OpenThenClose | composables/useReusableState.ts:23-34 | values written through the proxy reach the composable's refs, so its reset is seen through the proxy |
| FullFileBrowsers.FullFileBrowserStore.constructor | stores/fullFileBrowsers.store.ts:4-7 | initially the selection is empty and the action, source and view id are undefined |
| FullFileBrowsers.FullFileBrowserStore.InitAction | stores/fullFileBrowsers.store.ts:9-21 | all four refs hold the call's action, paths (replaced, not merged), source and view id |
| FullFileBrowsers.FullFileBrowserStore.StartPendingAction | stores/fullFileBrowsers.store.ts:23 | nothing changes |
| FullFileBrowsers.InitActionLastWriteWins | stores/fullFileBrowsers.store.ts:9-21 | two stagings leave exactly the second; the first leaves no trace |
| FullFileBrowsers.StagedIsNotIdle | stores/fullFileBrowsers.store.ts:5-10 | a staged store always holds one of copy, move or hard_link |

## Left out

- The batch copy, move, hard-link, delete and create-directory operations, and the commit that would compute destinations. The router defines only `get`, and `startPendingAction` has an empty body, so there is nothing to model.
- The file system and `path.resolve`: `Get` takes them as function parameters. Node's behaviour behind them is not modelled.
- Vue reactivity: watchers, computed tracking and re-rendering. A ref is only a mutable cell. Computed refs, which are read-only, do not appear in the two composables and are not modelled, and neither are symbol-keyed properties.
- The generic `useReusableState(composable)` over an arbitrary composable: the factory is modelled for the two composables that use it, `UseRenamingModal` and `UseDeletionModal`.
- `path.parse` beyond the base name: Windows separators and the `root`, `dir`, `name` and `ext` fields are not modelled. `name + ext` is the POSIX base name.
- ReusableState.Proxy.Get: properties inherited from `Object.prototype` (`toString`, `constructor`, ...) are not modelled; the model reads every property the object does not own as `undefined`, where JavaScript would return the inherited member.
- ReusableState.Proxy.Set: the written and stored values (`ReusableState.Value`) are booleans, strings and functions only, never refs or other objects; in JavaScript a `set` of a ref into a plain property stores the ref, and the `get` trap later unwraps it.
- FullFileBrowsers.FullFileBrowserStore.InitAction: the selection is a `seq` value, so the aliasing of `options.paths` is lost; the store keeps the caller's own array, and an in-place change the caller makes to it later also changes the staged selection.
- FullFileBrowsers.FullFileBrowserStore.constructor: `defineStore` gives every view one shared store instance; the model's constructor builds independent stores, and the sharing between views is not modelled.
- The zod input validation (a non-string path is rejected before the query runs) and tRPC's transport and serialisation.
- The Prisma client, server start-up plugin and context middleware, the auth router stub (`checkCredentials` returns `{}`), the tRPC client plugin, the `mitt` event emitter wrapper, and the Nuxt and Tailwind configuration: plumbing or third-party libraries, not part of this model.
