/**
 * The popup's ui slice (src/entrypoints/popup/store/slices/uiSlice.js):
 * loading flags, the captured tab, the enable flag and a click counter.
 */
module UiSlice {
  import opened Json

  datatype UiState = UiState(
    isLoaded: bool,
    isLoading: bool,
    tab: JsValue,
    isEnable: JsValue,
    current: JsValue,
    countClick: int)

  const InitialUi: UiState := UiState(false, false, JObj(map[]), JBool(false), JStr("equalizer"), 0)

  /** `incrementCountClick`: past 100 the counter wraps to 0. */
  function NextCount(c: int): int
  {
    if c > 100 then 0 else c + 1
  }

  /** `x !== undefined` on a property read. */
  predicate Defined(v: JsValue)
  {
    !v.JUndefined?
  }

  /** A tab is kept when it is a non-array object with an `id`, `url` or `title`; anything else becomes `{}`. */
  function CheckedTab(tab: JsValue): JsValue
  {
    if Truthy(tab) && TypeOf(tab) == "object" && !IsArray(tab) then
      if Defined(Get(tab, "id")) || Defined(Get(tab, "url")) || Defined(Get(tab, "title")) then tab
      else JObj(map[])
    else if Truthy(tab) then JObj(map[])
    else tab
  }

  /**
   * The state `loadInitialData.fulfilled` leaves, given the current tab
   * `tabData` and the stored `prefs`.
   */
  function Loaded(s: UiState, tabData: JsValue, prefs: JsValue): UiState
  {
    var from := Or(prefs, JObj(map[]));
    var currentTabId := Get(from, "currentTabId");
    var tabId := Get(tabData, "id");
    var tab := Or(Get(from, "tab"), Or(tabData, JObj(map[])));
    s.(tab := CheckedTab(tab),
       isEnable :=
         if Defined(currentTabId) && Defined(tabId) && TypeOf(currentTabId) == "number" && TypeOf(tabId) == "number"
         then JBool(StrictEquals(currentTabId, tabId))
         else s.isEnable,
       isLoaded := true,
       isLoading := false)
  }

  class Ui {
    var isLoaded: bool
    var isLoading: bool
    var tab: JsValue
    var isEnable: JsValue
    var current: JsValue
    var countClick: int

    function State(): UiState
      reads this
    {
      UiState(isLoaded, isLoading, tab, isEnable, current, countClick)
    }

    /** The counter starts at 0 and only the two counter reducers touch it, so it stays in [0, 101]. */
    predicate Valid()
      reads this
    {
      0 <= countClick <= 101
    }

    constructor ()
      ensures Valid() && State() == InitialUi
    {
      isLoaded, isLoading, tab, isEnable, current, countClick := false, false, JObj(map[]), JBool(false), JStr("equalizer"), 0;
    }

    method SetIsLoaded(payload: bool)
      requires Valid()
      modifies this
      ensures Valid() && State() == old(State()).(isLoaded := payload)
    {
      isLoaded := payload;
    }

    method SetIsLoading(payload: bool)
      requires Valid()
      modifies this
      ensures Valid() && State() == old(State()).(isLoading := payload)
    {
      isLoading := payload;
    }

    method SetTab(payload: JsValue)
      requires Valid()
      modifies this
      ensures Valid() && State() == old(State()).(tab := payload)
    {
      tab := payload;
    }

    method SetIsEnable(payload: JsValue)
      requires Valid()
      modifies this
      ensures Valid() && State() == old(State()).(isEnable := payload)
    {
      isEnable := payload;
    }

    method SetCurrent(payload: JsValue)
      requires Valid()
      modifies this
      ensures Valid() && State() == old(State()).(current := payload)
    {
      current := payload;
    }

    method IncrementCountClick()
      requires Valid()
      modifies this
      ensures Valid() && State() == old(State()).(countClick := NextCount(old(countClick)))
    {
      if countClick > 100 {
        countClick := 0;
      } else {
        countClick := countClick + 1;
      }
    }

    method ResetCountClick()
      requires Valid()
      modifies this
      ensures Valid() && State() == old(State()).(countClick := 0)
    {
      countClick := 0;
    }

    /** `initializeFromStorage({tab, currentTabId, tabId})`. */
    method InitializeFromStorage(newTab: JsValue, currentTabId: JsValue, tabId: JsValue)
      requires Valid()
      modifies this
      ensures Valid()
      ensures State() == old(State()).(
        tab := if Truthy(newTab) then newTab else old(tab),
        isEnable := if Defined(currentTabId) && Defined(tabId) then JBool(StrictEquals(currentTabId, tabId)) else old(isEnable))
    {
      if Truthy(newTab) {
        tab := newTab;
      }
      if Defined(currentTabId) && Defined(tabId) {
        isEnable := JBool(StrictEquals(currentTabId, tabId));
      }
    }

    /** `loadInitialData.pending`. */
    method LoadPending()
      requires Valid()
      modifies this
      ensures Valid() && State() == old(State()).(isLoading := true)
    {
      isLoading := true;
    }

    /** `loadInitialData.fulfilled` with the current tab and the stored `prefs`. */
    method LoadFulfilled(tabData: JsValue, prefs: JsValue)
      requires Valid()
      modifies this
      ensures Valid() && State() == Loaded(old(State()), tabData, prefs)
    {
      var from := Or(prefs, JObj(map[]));
      var storedTab := Get(from, "tab");
      var currentTabId := Get(from, "currentTabId");
      var candidate := Or(storedTab, Or(tabData, JObj(map[])));
      tab := CheckedTab(candidate);
      var tabId := Get(tabData, "id");
      if Defined(currentTabId) && Defined(tabId) {
        if TypeOf(currentTabId) == "number" && TypeOf(tabId) == "number" {
          isEnable := JBool(StrictEquals(currentTabId, tabId));
        }
      }
      isLoaded := true;
      isLoading := false;
    }

    /** `loadInitialData.rejected`: the defaults stay, and loading ends. */
    method LoadRejected()
      requires Valid()
      modifies this
      ensures Valid() && State() == old(State()).(isLoaded := true, isLoading := false)
    {
      isLoaded := true;
      isLoading := false;
    }

    /** `toggleEnable.fulfilled` with the thunk's result. */
    method ToggleFulfilled(payload: JsValue)
      requires Valid()
      modifies this
      ensures Valid()
      ensures State() == old(State()).(isEnable :=
        if Truthy(payload) && Defined(Get(payload, "newValue")) then Get(payload, "newValue") else old(isEnable))
    {
      if Truthy(payload) && Defined(Get(payload, "newValue")) {
        isEnable := Get(payload, "newValue");
      }
    }
  }

  // ---------------------------------------------------------------------
  // Properties

  /** The counter steps by one up to 101 and then wraps to 0, so from [0, 101] it never leaves it. */
  lemma CountStaysBounded(c: int)
    requires 0 <= c <= 101
    ensures 0 <= NextCount(c) <= 101
    ensures NextCount(c) == 0 <==> c == 101
    ensures c <= 100 ==> NextCount(c) == c + 1
  {
  }

  /** After the load the tab is always an object: the candidate tab when it names an id, url or title, else `{}`. */
  lemma LoadedTab(s: UiState, tabData: JsValue, prefs: JsValue)
    ensures Loaded(s, tabData, prefs).tab.JObj?
    ensures var from := Or(prefs, JObj(map[]));
      var t := Or(Get(from, "tab"), Or(tabData, JObj(map[])));
      Loaded(s, tabData, prefs).tab ==
        if t.JObj? && (Defined(Get(t, "id")) || Defined(Get(t, "url")) || Defined(Get(t, "title"))) then t else JObj(map[])
  {
  }

  /** The load changes `isEnable` only when the stored current tab id and the tab's id are both numbers, and then to their equality. */
  lemma LoadedEnable(s: UiState, tabData: JsValue, prefs: JsValue)
    ensures var c := Get(Or(prefs, JObj(map[])), "currentTabId");
      var t := Get(tabData, "id");
      Loaded(s, tabData, prefs).isEnable ==
        if c.JNum? && t.JNum? then JBool(StrictEquals(c, t)) else s.isEnable
    ensures Loaded(s, tabData, prefs).isLoaded && !Loaded(s, tabData, prefs).isLoading
    ensures Loaded(s, tabData, prefs).(tab := s.tab, isEnable := s.isEnable, isLoaded := s.isLoaded, isLoading := s.isLoading) == s
  {
  }
}
