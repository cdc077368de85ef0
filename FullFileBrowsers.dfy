/**
 * stores/fullFileBrowsers.store.ts: the store in which one file-browser view
 * stages a copy, move or hard-link of its selected items so that another
 * view can later supply the destination.
 */
module FullFileBrowsers {
  import opened Wrappers

  /** The action kinds that can be staged; the type admits nothing else. */
  datatype PendingAction = Copy | Move | HardLink

  /** The `options` argument of `initAction`. */
  datatype InitOptions = InitOptions(paths: seq<string>, src: string, fullFileBrowserId: string)

  /** The four refs of the store, with `undefined` as `None`. */
  class FullFileBrowserStore {
    var selectedItemsForAction: seq<string>
    var currentlyPendingAction: Option<PendingAction>
    var currentlyPendingSrc: Option<string>
    var currentlyPendingFullFileBrowserId: Option<string>

    /** Nothing is staged: no selection, no action, no source, no view. */
    predicate IsIdle()
      reads this
    {
      selectedItemsForAction == [] && currentlyPendingAction == None &&
      currentlyPendingSrc == None && currentlyPendingFullFileBrowserId == None
    }

    /** The store holds exactly what `initAction(action, options)` records. */
    predicate HoldsStaged(action: PendingAction, options: InitOptions)
      reads this
    {
      currentlyPendingAction == Some(action) &&
      selectedItemsForAction == options.paths &&
      currentlyPendingSrc == Some(options.src) &&
      currentlyPendingFullFileBrowserId == Some(options.fullFileBrowserId)
    }

    constructor ()
      ensures IsIdle()
    {
      selectedItemsForAction := [];
      currentlyPendingAction := None;
      currentlyPendingSrc := None;
      currentlyPendingFullFileBrowserId := None;
    }

    /**
     * `initAction(action, options)`: overwrite all four refs. The selection is
     * replaced by `options.paths`, not merged with an earlier one, and nothing
     * of the previous state survives.
     */
    method InitAction(action: PendingAction, options: InitOptions)
      modifies this
      ensures HoldsStaged(action, options)
    {
      currentlyPendingAction := Some(action);
      selectedItemsForAction := options.paths;
      currentlyPendingSrc := Some(options.src);
      currentlyPendingFullFileBrowserId := Some(options.fullFileBrowserId);
    }

    /** `startPendingAction()`: its body is empty, so it changes nothing. */
    method StartPendingAction()
      ensures unchanged(this)
    {
    }
  }

  /** Staging twice leaves exactly the second staging, whatever the first was. */
  method InitActionLastWriteWins(store: FullFileBrowserStore,
                                 a1: PendingAction, o1: InitOptions,
                                 a2: PendingAction, o2: InitOptions)
    modifies store
    ensures store.HoldsStaged(a2, o2)
    ensures store.HoldsStaged(a1, o1) ==> a1 == a2 && o1 == o2
  {
    store.InitAction(a1, o1);
    store.InitAction(a2, o2);
  }

  /** A staged store is never idle: staging always records an action kind. */
  lemma StagedIsNotIdle(store: FullFileBrowserStore, action: PendingAction, options: InitOptions)
    requires store.HoldsStaged(action, options)
    ensures !store.IsIdle()
    ensures store.currentlyPendingAction.Some?
  {
  }
}
