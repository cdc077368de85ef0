/**
 * composables/useDeletionModal.ts: the deletion dialog's state (is it open,
 * the path about to be deleted) and `closeDeletionModal`, which resets it.
 */
module DeletionModal {
  import opened ReusableState

  /** What the two refs hold: opened, path to delete. */
  datatype DeletionState = DeletionState(isOpen: Value, src: Value)

  /** The closed, empty dialog: the initial state and the state after closing. */
  const Closed: DeletionState := DeletionState(Bool(false), Str(""))

  /** One run of the composable: its two refs, captured by `closeDeletionModal`. */
  class DeletionModal {
    const isDeletionModalOpened: Ref
    const deletingItemSrc: Ref

    ghost predicate Valid()
    {
      isDeletionModalOpened != deletingItemSrc
    }

    function State(): DeletionState
      reads isDeletionModalOpened, deletingItemSrc
    {
      DeletionState(isDeletionModalOpened.value, deletingItemSrc.value)
    }

    /** The composable body: closed, with no path. */
    constructor ()
      ensures Valid()
      ensures fresh(isDeletionModalOpened) && fresh(deletingItemSrc)
      ensures State() == Closed
    {
      isDeletionModalOpened := new Ref(Bool(false));
      deletingItemSrc := new Ref(Str(""));
    }

    /**
     * `closeDeletionModal()`: forget the path and close the dialog. The new
     * state does not depend on the old one, so closing twice is closing once.
     */
    method CloseDeletionModal()
      requires Valid()
      modifies isDeletionModalOpened, deletingItemSrc
      ensures State() == Closed
    {
      deletingItemSrc.value := Str("");
      isDeletionModalOpened.value := Bool(false);
    }
  }

  /**
   * The object the composable returns: its two refs and `closeDeletionModal`.
   * The cells it exposes are exactly the refs `closeDeletionModal` writes,
   * and the function is its only plain property.
   */
  function ProxiedObject(modal: DeletionModal): (r: map<string, Field>)
    ensures (set p | p in r && r[p].IsRef? :: r[p].cell)
            == {modal.isDeletionModalOpened, modal.deletingItemSrc}
    ensures forall p :: p in r && r[p].NotRef? ==> p == "closeDeletionModal"
  {
    var r := map[
      "isDeletionModalOpened" := IsRef(modal.isDeletionModalOpened),
      "deletingItemSrc" := IsRef(modal.deletingItemSrc),
      "closeDeletionModal" := NotRef(Callable("closeDeletionModal"))];
    assert r["isDeletionModalOpened"].cell == modal.isDeletionModalOpened;
    assert r["deletingItemSrc"].cell == modal.deletingItemSrc;
    r
  }

  /** `state` proxies the object returned by the run of the composable that made `modal`. */
  ghost predicate Wired(modal: DeletionModal, state: Proxy)
    reads state
  {
    && "isDeletionModalOpened" in state.target
    && state.target["isDeletionModalOpened"] == IsRef(modal.isDeletionModalOpened)
    && "deletingItemSrc" in state.target
    && state.target["deletingItemSrc"] == IsRef(modal.deletingItemSrc)
  }

  /**
   * `useDeletionModal()`: a fresh run of the composable, wrapped in the
   * reusable-state proxy.
   */
  method UseDeletionModal() returns (modal: DeletionModal, state: Proxy)
    ensures fresh(modal) && fresh(state) && modal.Valid()
    ensures fresh(modal.isDeletionModalOpened) && fresh(modal.deletingItemSrc)
    ensures state.target == ProxiedObject(modal)
    ensures state.Get("isDeletionModalOpened") == Bool(false)
    ensures state.Get("deletingItemSrc") == Str("")
  {
    modal := new DeletionModal();
    state := new Proxy(ProxiedObject(modal));
  }

  /**
   * A view opens the dialog by writing through the proxy (the ref keeps its
   * cell, so `closeDeletionModal` later resets the very value written), and
   * closing it then reads back as closed and empty through the same proxy.
   */
  method OpenThenClose(modal: DeletionModal, state: Proxy, src: string)
    requires modal.Valid() && Wired(modal, state)
    modifies state, state.Cells()
    ensures Wired(modal, state)
    ensures state.Get("isDeletionModalOpened") == Bool(false)
    ensures state.Get("deletingItemSrc") == Str("")
  {
    var ok := state.Set("deletingItemSrc", Str(src));
    ok := state.Set("isDeletionModalOpened", Bool(true));
    assert modal.State() == DeletionState(Bool(true), Str(src));
    modal.CloseDeletionModal();
  }
}
