/**
 * composables/useRenamingModal.ts: the renaming dialog's state (is it open,
 * the name being typed, the path being renamed) and `handleRename`, which
 * opens the dialog pre-filled with the item's current name.
 */
module RenamingModal {
  import opened ReusableState

  /** The `type` tag of a listed item (types/utils.d.ts). */
  datatype PathKind = DirectoryPath | FilePath

  /** `PathOption`: a listed item, as the listing views hand it over. */
  datatype PathOption = PathOption(path: string, kind: PathKind)

  // ---------------------------------------------------------------------
  // The leaf name: `name + ext` of `path.parse(p)`, i.e. the POSIX base name
  // ---------------------------------------------------------------------

  /** `p` without its trailing `/` separators. */
  function StripTrailingSlashes(p: string): (r: string)
    ensures |r| <= |p| && r == p[..|r|]
    ensures r == [] || r[|r| - 1] != '/'
    ensures forall i :: |r| <= i < |p| ==> p[i] == '/'
  {
    if p != [] && p[|p| - 1] == '/' then StripTrailingSlashes(p[..|p| - 1]) else p
  }

  /** What follows the last `/` of `s` (all of `s` when it has none). */
  function LastComponent(s: string): (r: string)
    ensures '/' !in r
    ensures |r| <= |s| && r == s[|s| - |r|..]
    ensures |r| < |s| ==> s[|s| - |r| - 1] == '/'
  {
    if s == [] || s[|s| - 1] == '/' then [] else LastComponent(s[..|s| - 1]) + [s[|s| - 1]]
  }

  /**
   * The leaf name of a path: its last component once trailing separators are
   * stripped (empty for `/` and for the empty path). `path.parse` splits this
   * into `name` and `ext`, which `handleRename` joins back together.
   */
  function Leaf(p: string): (r: string)
    ensures '/' !in r
  {
    LastComponent(StripTrailingSlashes(p))
  }

  /** `n` separators. */
  function Slashes(n: nat): (r: string)
    ensures |r| == n && forall i :: 0 <= i < n ==> r[i] == '/'
  {
    if n == 0 then [] else Slashes(n - 1) + ['/']
  }

  /**
   * The leaf of a name joined under a directory is that name, whatever the
   * directory and however many trailing separators follow.
   */
  lemma LeafOfJoin(dir: string, name: string, n: nat)
    requires name != [] && '/' !in name
    ensures Leaf(dir + "/" + name + Slashes(n)) == name
  {
    var joined := dir + "/" + name;
    assert joined[|joined| - 1] == name[|name| - 1];
    var p := joined + Slashes(n);
    var stripped := StripTrailingSlashes(p);
    assert p[|joined| - 1] != '/';
    assert !(|stripped| < |joined|);
    assert !(|stripped| > |joined|);
    assert stripped == joined;
    assert joined[|dir|] == '/';
    assert LastComponent(joined) == joined[|dir| + 1..] == name;
  }

  /** Taking the leaf of a leaf changes nothing. */
  lemma LeafIdempotent(p: string)
    ensures Leaf(Leaf(p)) == Leaf(p)
  {
  }

  // ---------------------------------------------------------------------
  // The composable's state
  // ---------------------------------------------------------------------

  /** What the three refs hold: opened, new name, source path. */
  datatype RenamingState = RenamingState(isOpen: Value, newName: Value, src: Value)

  /** The state right after `handleRename(e)`, whatever it was before. */
  function AfterRename(e: PathOption): (s: RenamingState)
    ensures s.isOpen == Bool(true)
    ensures s.src == Str(e.path)
    ensures s.newName.Str? && '/' !in s.newName.s
  {
    RenamingState(Bool(true), Str(Leaf(e.path)), Str(e.path))
  }

  /** Only the item's path matters; its `type` tag is never read. */
  lemma RenameIgnoresKind(p: string, k1: PathKind, k2: PathKind)
    ensures AfterRename(PathOption(p, k1)) == AfterRename(PathOption(p, k2))
  {
  }

  /**
   * The pre-filled name of an item listed as `name` inside `dir` is `name`
   * itself.
   */
  lemma RenamePrefillsListedName(dir: string, name: string, k: PathKind)
    requires name != [] && '/' !in name
    ensures AfterRename(PathOption(dir + "/" + name, k)).newName == Str(name)
  {
    LeafOfJoin(dir, name, 0);
    assert dir + "/" + name + Slashes(0) == dir + "/" + name;
  }

  /** One run of the composable: its three refs, captured by `handleRename`. */
  class RenamingModal {
    const isRenamingModalOpened: Ref
    const renamingItemNewName: Ref
    const renamingItemSrc: Ref

    /** The three refs are three distinct cells. */
    ghost predicate Valid()
    {
      isRenamingModalOpened != renamingItemNewName &&
      isRenamingModalOpened != renamingItemSrc &&
      renamingItemNewName != renamingItemSrc
    }

    function State(): RenamingState
      reads isRenamingModalOpened, renamingItemNewName, renamingItemSrc
    {
      RenamingState(isRenamingModalOpened.value, renamingItemNewName.value, renamingItemSrc.value)
    }

    /** The composable body: closed, with an empty name and source. */
    constructor ()
      ensures Valid()
      ensures fresh(isRenamingModalOpened) && fresh(renamingItemNewName) && fresh(renamingItemSrc)
      ensures State() == RenamingState(Bool(false), Str(""), Str(""))
    {
      isRenamingModalOpened := new Ref(Bool(false));
      renamingItemNewName := new Ref(Str(""));
      renamingItemSrc := new Ref(Str(""));
    }

    /**
     * `handleRename(e)`: pre-fill the new name with the leaf of `e.path`,
     * remember `e.path` verbatim as the source, open the dialog. The new
     * state depends on `e.path` alone, so a second identical call leaves it
     * as the first one did.
     */
    method HandleRename(e: PathOption)
      requires Valid()
      modifies isRenamingModalOpened, renamingItemNewName, renamingItemSrc
      ensures State() == AfterRename(e)
    {
      renamingItemNewName.value := Str(Leaf(e.path));
      renamingItemSrc.value := Str(e.path);
      isRenamingModalOpened.value := Bool(true);
    }
  }

  /**
   * The object the composable returns: its three refs and `handleRename`.
   * The cells it exposes are exactly the refs `handleRename` writes, and the
   * function is its only plain property.
   */
  function ProxiedObject(modal: RenamingModal): (r: map<string, Field>)
    ensures (set p | p in r && r[p].IsRef? :: r[p].cell)
            == {modal.isRenamingModalOpened, modal.renamingItemNewName, modal.renamingItemSrc}
    ensures forall p :: p in r && r[p].NotRef? ==> p == "handleRename"
  {
    var r := map[
      "isRenamingModalOpened" := IsRef(modal.isRenamingModalOpened),
      "renamingItemNewName" := IsRef(modal.renamingItemNewName),
      "renamingItemSrc" := IsRef(modal.renamingItemSrc),
      "handleRename" := NotRef(Callable("handleRename"))];
    assert r["isRenamingModalOpened"].cell == modal.isRenamingModalOpened;
    assert r["renamingItemNewName"].cell == modal.renamingItemNewName;
    assert r["renamingItemSrc"].cell == modal.renamingItemSrc;
    r
  }

  /** `state` proxies the object returned by the run of the composable that made `modal`. */
  ghost predicate Wired(modal: RenamingModal, state: Proxy)
    reads state
  {
    && "isRenamingModalOpened" in state.target
    && state.target["isRenamingModalOpened"] == IsRef(modal.isRenamingModalOpened)
    && "renamingItemNewName" in state.target
    && state.target["renamingItemNewName"] == IsRef(modal.renamingItemNewName)
    && "renamingItemSrc" in state.target
    && state.target["renamingItemSrc"] == IsRef(modal.renamingItemSrc)
  }

  /**
   * `useRenamingModal()`: every call runs the composable afresh, so it gets
   * refs of its own, and wraps the returned object in the reusable-state
   * proxy, whose ref properties are the very cells `handleRename` writes.
   */
  method UseRenamingModal() returns (modal: RenamingModal, state: Proxy)
    ensures fresh(modal) && fresh(state) && modal.Valid()
    ensures fresh(modal.isRenamingModalOpened) && fresh(modal.renamingItemNewName) && fresh(modal.renamingItemSrc)
    ensures state.target == ProxiedObject(modal)
    ensures state.Get("isRenamingModalOpened") == Bool(false)
    ensures state.Get("renamingItemNewName") == Str("")
    ensures state.Get("renamingItemSrc") == Str("")
  {
    modal := new RenamingModal();
    state := new Proxy(ProxiedObject(modal));
  }

  /**
   * Calling `handleRename` through a proxy made by `UseRenamingModal` is seen
   * by reads through that proxy: the dialog reads open, with the leaf name
   * and the source path.
   */
  method RenameThroughProxy(modal: RenamingModal, state: Proxy, e: PathOption)
    requires modal.Valid()
    requires Wired(modal, state)
    modifies modal.isRenamingModalOpened, modal.renamingItemNewName, modal.renamingItemSrc
    ensures state.Get("isRenamingModalOpened") == Bool(true)
    ensures state.Get("renamingItemNewName") == Str(Leaf(e.path))
    ensures state.Get("renamingItemSrc") == Str(e.path)
  {
    modal.HandleRename(e);
  }
}
