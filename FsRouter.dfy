/**
 * The `fs` router of server/trpc/routers/fs.router.ts: its one procedure,
 * `get`, lists a directory as the names of its sub-directories and the names
 * of its files, and turns a failed read into exactly one tRPC error.
 *
 * The file system is not modelled: `path.resolve` and `fs.readdir` are
 * parameters of `Get`, so every property below holds for whatever they do.
 */
module FsRouter {
  import opened Wrappers
  import opened Trpc

  /** The entry types a `fs.Dirent` can report. */
  datatype DirentKind = Directory | File | SymbolicLink | BlockDevice | CharacterDevice | Fifo | Socket

  /** One entry of `fs.readdir(dir, { withFileTypes: true })`. */
  datatype Dirent = Dirent(name: string, kind: DirentKind)

  /** What the `readdir` promise settles to. */
  datatype ReadResult = Entries(entries: seq<Dirent>) | Rejected(thrown: Thrown)

  /** The procedure's input, `{ path?: string }` before zod applies the default. */
  datatype GetInput = GetInput(path: Option<string>)

  /** The value `get` returns on success. */
  datatype Listing = Listing(directories: seq<string>, files: seq<string>, fullPath: string)

  const DefaultPath: string := "/"
  const PermissionDeniedMessage: string := "EACCESS: permission denied"
  const MissingDirectoryMessage: string := "Directory does not exist"
  const ReadFailedMessage: string := "Failed to read directory"

  /**
   * `isError`: the thrown value is an `Error` instance. Only such a value
   * can carry an errno `code`; every other thrown value is not an error.
   */
  predicate IsError(e: Thrown)
    ensures IsError(e) <==> e != NonError
  {
    e.Err?
  }

  /**
   * The names of the entries of kind `k`, in `readdir` order: the
   * `filter(...).map((dirent) => dirent.name)` chain of `get`.
   */
  function NamesOfKind(es: seq<Dirent>, k: DirentKind): (r: seq<string>)
    ensures |r| <= |es|
  {
    if es == [] then []
    else (if es[0].kind == k then [es[0].name] else []) + NamesOfKind(es[1..], k)
  }

  /**
   * `readResult.filter((dirent) => dirent.isDirectory()).map(...)`: the names
   * of the directory entries, at their positions and in `readdir` order.
   */
  function Directories(es: seq<Dirent>): (r: seq<string>)
    ensures |r| == |KindPositions(es, Directory)|
    ensures forall j :: 0 <= j < |r| ==> r[j] == es[KindPositions(es, Directory)[j]].name
  {
    NamesOfKindAtPositions(es, Directory);
    NamesOfKind(es, Directory)
  }

  /**
   * `readResult.filter((dirent) => dirent.isFile()).map(...)`: the names of
   * the file entries, at their positions and in `readdir` order.
   */
  function Files(es: seq<Dirent>): (r: seq<string>)
    ensures |r| == |KindPositions(es, File)|
    ensures forall j :: 0 <= j < |r| ==> r[j] == es[KindPositions(es, File)[j]].name
  {
    NamesOfKindAtPositions(es, File);
    NamesOfKind(es, File)
  }

  /**
   * Reference definition of the filter: the positions of the entries of kind
   * `k`, in increasing order.
   */
  function KindPositions(es: seq<Dirent>, k: DirentKind): (ps: seq<nat>)
    ensures forall i :: i in ps <==> 0 <= i < |es| && es[i].kind == k
    ensures forall a, b :: 0 <= a < b < |ps| ==> ps[a] < ps[b]
    ensures forall a :: 0 <= a < |ps| ==> ps[a] < |es|
  {
    if es == [] then []
    else
      var init := es[..|es| - 1];
      KindPositions(init, k) + (if es[|es| - 1].kind == k then [|es| - 1] else [])
  }

  /**
   * The catch block of `get`: an `Error` with code `EACCES` becomes
   * FORBIDDEN, every other `Error` (with any other code or none) becomes
   * NOT_FOUND, and a thrown non-`Error` becomes INTERNAL_SERVER_ERROR. The
   * thrown value is always kept as the cause.
   */
  function Classify(e: Thrown): (r: TrpcError)
    ensures r.cause == Some(e)
    ensures r.code == Forbidden <==> e == Err(Some("EACCES"))
    ensures r.code == NotFound <==> IsError(e) && e.code != Some("EACCES")
    ensures r.code == InternalServerError <==> !IsError(e)
    ensures r.code == Forbidden ==> r.message == PermissionDeniedMessage
    ensures r.code == NotFound ==> r.message == MissingDirectoryMessage
    ensures r.code == InternalServerError ==> r.message == ReadFailedMessage
  {
    if IsError(e) then
      if e.code == Some("EACCES") then
        TrpcError(Forbidden, PermissionDeniedMessage, Some(e))
      else
        TrpcError(NotFound, MissingDirectoryMessage, Some(e))
    else
      TrpcError(InternalServerError, ReadFailedMessage, Some(e))
  }

  /**
   * The query of `get`, behind the guard: resolve the input path (`/` when
   * absent), read it, and either split the entries or throw the classified
   * error. `resolve` stands for `path.resolve`, `readdir` for `fs.readdir`.
   */
  function Get(input: GetInput, resolve: string -> string, readdir: string -> ReadResult): (r: Outcome<Listing>)
    ensures var fullPath := resolve(input.path.GetOr(DefaultPath));
      && (r.Returned? <==> readdir(fullPath).Entries?)
      && (r.Returned? ==> r.value.fullPath == fullPath
                          && r.value.directories == Directories(readdir(fullPath).entries)
                          && r.value.files == Files(readdir(fullPath).entries))
      && (r.Threw? ==> r.error == Classify(readdir(fullPath).thrown))
  {
    var fullPath := resolve(input.path.GetOr(DefaultPath));
    match readdir(fullPath)
    case Entries(es) => Returned(Listing(Directories(es), Files(es), fullPath))
    case Rejected(e) => Threw(Classify(e))
  }

  /** `fsRouter.get` as clients call it: the query behind `authorizedProcedure`. */
  function GetProcedure(ctx: Context, input: GetInput, resolve: string -> string,
                        readdir: string -> ReadResult): (r: Outcome<Listing>)
    ensures !HasUser(ctx) ==> r == Threw(Unauthenticated)
    ensures HasUser(ctx) ==> r == Get(input, resolve, readdir)
  {
    AuthorizedProcedure(ctx, () => Get(input, resolve, readdir))
  }

  // ---------------------------------------------------------------------
  // Properties of the listing
  // ---------------------------------------------------------------------

  /** Listing the concatenation of two entry lists keeps each list's names in order. */
  lemma {:induction false} NamesOfKindAppend(a: seq<Dirent>, b: seq<Dirent>, k: DirentKind)
    ensures NamesOfKind(a + b, k) == NamesOfKind(a, k) + NamesOfKind(b, k)
  {
    if a == [] {
      assert a + b == b;
    } else {
      assert (a + b)[1..] == a[1..] + b;
      NamesOfKindAppend(a[1..], b, k);
    }
  }

  /**
   * The names of kind `k` are exactly the names found at the positions of the
   * entries of kind `k`, in the same order: nothing is added, dropped or
   * reordered.
   */
  lemma {:induction false} NamesOfKindAtPositions(es: seq<Dirent>, k: DirentKind)
    ensures |NamesOfKind(es, k)| == |KindPositions(es, k)|
    ensures forall j :: 0 <= j < |KindPositions(es, k)| ==>
              NamesOfKind(es, k)[j] == es[KindPositions(es, k)[j]].name
  {
    if es != [] {
      var init, last := es[..|es| - 1], es[|es| - 1];
      assert es == init + [last];
      NamesOfKindAppend(init, [last], k);
      NamesOfKindAtPositions(init, k);
      assert NamesOfKind([last], k) == (if last.kind == k then [last.name] else []) by {
        assert [last][1..] == [];
      }
    }
  }

  /**
   * `directories` lists every directory entry's name and only those, in
   * `readdir` order, and `files` does the same for file entries.
   */
  lemma DirectoriesAndFilesFollowReaddirOrder(es: seq<Dirent>)
    ensures |Directories(es)| == |KindPositions(es, Directory)|
    ensures forall j :: 0 <= j < |KindPositions(es, Directory)| ==>
              Directories(es)[j] == es[KindPositions(es, Directory)[j]].name
    ensures |Files(es)| == |KindPositions(es, File)|
    ensures forall j :: 0 <= j < |KindPositions(es, File)| ==>
              Files(es)[j] == es[KindPositions(es, File)[j]].name
  {
    NamesOfKindAtPositions(es, Directory);
    NamesOfKindAtPositions(es, File);
  }

  /**
   * No entry is listed twice: an entry position feeds `directories`, or
   * `files`, or (symbolic links, devices, FIFOs, sockets) neither.
   */
  lemma NoEntryInBothLists(es: seq<Dirent>, i: nat)
    requires i < |es|
    ensures !(i in KindPositions(es, Directory) && i in KindPositions(es, File))
    ensures es[i].kind !in {Directory, File} ==>
              i !in KindPositions(es, Directory) && i !in KindPositions(es, File)
  {
  }

  /** A name is listed under `directories` exactly when some directory entry carries it. */
  lemma {:induction false} NamesOfKindMembership(es: seq<Dirent>, k: DirentKind, n: string)
    ensures n in NamesOfKind(es, k) <==> exists i :: 0 <= i < |es| && es[i].kind == k && es[i].name == n
  {
    if es != [] {
      NamesOfKindMembership(es[1..], k, n);
      if n in NamesOfKind(es[1..], k) {
        var i :| 0 <= i < |es[1..]| && es[1..][i].kind == k && es[1..][i].name == n;
        assert es[i + 1] == es[1..][i];
      }
      if exists i :: 0 <= i < |es| && es[i].kind == k && es[i].name == n {
        var i :| 0 <= i < |es| && es[i].kind == k && es[i].name == n;
        if i > 0 {
          assert es[1..][i - 1] == es[i];
        }
      }
    }
  }

  /**
   * Together the two lists are never longer than the directory, and they hold
   * every entry exactly when it has no entry of another type.
   */
  lemma {:induction false} ListsCoverOnlyDirectoriesAndFiles(es: seq<Dirent>)
    ensures |Directories(es)| + |Files(es)| <= |es|
    ensures |Directories(es)| + |Files(es)| == |es| <==>
              forall i :: 0 <= i < |es| ==> es[i].kind in {Directory, File}
  {
    if es != [] {
      ListsCoverOnlyDirectoriesAndFiles(es[1..]);
      if forall i :: 0 <= i < |es[1..]| ==> es[1..][i].kind in {Directory, File} {
        if es[0].kind in {Directory, File} {
          forall i | 0 <= i < |es| ensures es[i].kind in {Directory, File} {
            if i > 0 { assert es[i] == es[1..][i - 1]; }
          }
        }
      } else {
        var i :| 0 <= i < |es[1..]| && es[1..][i].kind !in {Directory, File};
        assert es[i + 1] == es[1..][i];
      }
    }
  }

  // ---------------------------------------------------------------------
  // Properties of the procedure
  // ---------------------------------------------------------------------

  /** An omitted path lists `/`. */
  lemma OmittedPathListsRoot(resolve: string -> string, readdir: string -> ReadResult)
    ensures Get(GetInput(None), resolve, readdir) == Get(GetInput(Some("/")), resolve, readdir)
  {
  }

  /** A permission failure is reported as FORBIDDEN 'EACCESS: permission denied'. */
  lemma PermissionDeniedIsForbidden(input: GetInput, resolve: string -> string, readdir: string -> ReadResult)
    requires readdir(resolve(input.path.GetOr(DefaultPath))) == Rejected(Err(Some("EACCES")))
    ensures Get(input, resolve, readdir).Threw?
    ensures Get(input, resolve, readdir).error.code == Forbidden
    ensures Get(input, resolve, readdir).error.message == "EACCESS: permission denied"
  {
  }

  /**
   * Every other `Error`, whatever its code (ENOENT, ENOTDIR, none), is
   * reported as NOT_FOUND 'Directory does not exist'.
   */
  lemma OtherErrorIsNotFound(input: GetInput, resolve: string -> string, readdir: string -> ReadResult,
                             code: Option<string>)
    requires code != Some("EACCES")
    requires readdir(resolve(input.path.GetOr(DefaultPath))) == Rejected(Err(code))
    ensures Get(input, resolve, readdir).Threw?
    ensures Get(input, resolve, readdir).error.code == NotFound
    ensures Get(input, resolve, readdir).error.message == "Directory does not exist"
  {
  }

  /** A thrown value that is not an `Error` is reported as INTERNAL_SERVER_ERROR. */
  lemma NonErrorIsInternal(input: GetInput, resolve: string -> string, readdir: string -> ReadResult)
    requires readdir(resolve(input.path.GetOr(DefaultPath))) == Rejected(NonError)
    ensures Get(input, resolve, readdir).Threw?
    ensures Get(input, resolve, readdir).error.code == InternalServerError
    ensures Get(input, resolve, readdir).error.message == "Failed to read directory"
  {
  }

  /**
   * A failed read never produces a listing: it throws one error, caused by
   * the value `readdir` threw and carrying one of the three messages.
   */
  lemma FailureAlwaysThrowsOneOfThree(input: GetInput, resolve: string -> string, readdir: string -> ReadResult)
    requires readdir(resolve(input.path.GetOr(DefaultPath))).Rejected?
    ensures Get(input, resolve, readdir).Threw?
    ensures Get(input, resolve, readdir).error.cause == Some(readdir(resolve(input.path.GetOr(DefaultPath))).thrown)
    ensures var e := Get(input, resolve, readdir).error;
      e.message in {PermissionDeniedMessage, MissingDirectoryMessage, ReadFailedMessage}
  {
  }

  /** An anonymous caller gets FORBIDDEN 'Unauthenticated' whatever the file system holds. */
  lemma AnonymousCallerNeverReadsTheDisk(ctx: Context, input: GetInput, resolve: string -> string,
                                         readdir1: string -> ReadResult, readdir2: string -> ReadResult)
    requires !HasUser(ctx)
    ensures GetProcedure(ctx, input, resolve, readdir1) == GetProcedure(ctx, input, resolve, readdir2)
    ensures GetProcedure(ctx, input, resolve, readdir1).Threw?
  {
  }
}
