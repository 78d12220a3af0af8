/**
 * The per-window saved rectangles the snapping code keeps so that a window
 * can be restored: a map from window id to its saved state, held in one
 * process-wide store.
 */
module WindowStates {
  import opened Wrappers
  import opened WindowRects

  /** A window's saved rectangle, with the id it is filed under. */
  datatype WindowState = WindowState(windowRect: WindowRect, windowId: string)

  /** `WindowState::new`. */
  function NewWindowState(windowId: string, windowRect: WindowRect): (s: WindowState)
    ensures s.windowId == windowId && s.windowRect == windowRect
  {
    WindowState(windowRect, windowId)
  }

  /** Lookup in a map of saved states. */
  function Lookup(states: map<string, WindowState>, windowId: string): (r: Option<WindowState>)
    ensures r.Some? <==> windowId in states
    ensures r.Some? ==> r.value == states[windowId]
  {
    if windowId in states then Some(states[windowId]) else None
  }

  /** `WindowStateStore`: the map of saved states. */
  class WindowStateStore {
    var windowStates: map<string, WindowState>

    /** `WindowStateStore::new`: an empty store. */
    constructor ()
      ensures windowStates == map[]
    {
      windowStates := map[];
    }

    /** `clone`: a new store with the same entries. */
    method Clone() returns (c: WindowStateStore)
      ensures fresh(c) && c.windowStates == windowStates
    {
      c := new WindowStateStore();
      c.windowStates := windowStates;
    }

    /** `get`: the state saved under the id, if any. */
    function Get(windowId: string): (r: Option<WindowState>)
      reads this
      ensures r == Lookup(windowStates, windowId)
    {
      Lookup(windowStates, windowId)
    }

    /** `insert`: file the state under the id, replacing any earlier one. */
    method Insert(windowId: string, state: WindowState)
      modifies this
      ensures windowStates == old(windowStates)[windowId := state]
    {
      windowStates := windowStates[windowId := state];
    }
  }

  /** The global map after `insert_window_state` as written: the insert goes into a clone, so the global is unchanged. */
  function AfterInsertAsWritten(global: map<string, WindowState>, windowId: string, state: WindowState): (r: map<string, WindowState>)
    ensures windowId !in global ==> windowId !in r
    ensures r == global
  {
    var clone := global[windowId := state];
    global
  }

  /** The global map after the insert the function's name promises. */
  function AfterInsert(global: map<string, WindowState>, windowId: string, state: WindowState): (r: map<string, WindowState>)
    ensures windowId in r && r[windowId] == state
    ensures forall k :: k != windowId ==> (k in r <==> k in global)
  {
    global[windowId := state]
  }

  /** The process-wide store behind `get_window_state` and `insert_window_state`. */
  class GlobalWindowStates {
    const store: WindowStateStore

    constructor ()
      ensures fresh(store) && store.windowStates == map[]
    {
      store := new WindowStateStore();
    }

    /** `get_window_state`. */
    method GetWindowState(windowId: string) returns (r: Option<WindowState>)
      ensures r == Lookup(store.windowStates, windowId)
    {
      r := store.Get(windowId);
    }

    /**
     * `insert_window_state` as written: it clones the global store and
     * inserts into the clone, which is then dropped.
     */
    method InsertWindowStateAsWritten(windowId: string, state: WindowState)
      ensures store.windowStates == AfterInsertAsWritten(old(store.windowStates), windowId, state)
    {
      var clone := store.Clone();
      clone.Insert(windowId, state);
    }

    /** `insert_window_state` as intended: the insert reaches the global store. */
    method InsertWindowState(windowId: string, state: WindowState)
      modifies store
      ensures store.windowStates == AfterInsert(old(store.windowStates), windowId, state)
    {
      store.Insert(windowId, state);
    }
  }

  /**
   * As written, a state inserted for a window is never found again: after
   * inserting into an empty global store, the lookup still gives nothing.
   */
  lemma InsertIsLost(windowId: string, state: WindowState)
    ensures Lookup(AfterInsertAsWritten(map[], windowId, state), windowId).None?
  {
  }

  /**
   * With the intended insert, the lookup gives the state just inserted and
   * every other window's state is kept.
   */
  lemma LookupAfterInsert(global: map<string, WindowState>, windowId: string, state: WindowState, other: string)
    requires other != windowId
    ensures Lookup(AfterInsert(global, windowId, state), windowId) == Some(state)
    ensures Lookup(AfterInsert(global, windowId, state), other) == Lookup(global, other)
  {
  }
}
