/**
 * The header that loads its tabs from the simulated backend
 * (microfrontend/microfrontend-header/src/HeaderDynamic.jsx): the load
 * lifecycle of `loadTabs`, the effect that starts it, and the view chosen from
 * the component state.
 */
module HeaderDynamic {
  import opened Wrappers
  import opened Navigation
  import opened TabsConfig

  const LoadError := "Failed to load navigation tabs"

  /** The tabs installed when loading fails. */
  function FallbackTabs(): seq<Item>
  {
    [Tab(1, "Dashboard")]
  }

  /** How the awaited `fetchAvailableTabs` call settled. */
  datatype FetchResult = Fetched(tabs: seq<Item>) | FetchFailed

  /** The effect's dependency list `[role, authToken]`. */
  datatype Deps = Deps(role: string, authToken: string)

  /** One rendered tab button. */
  datatype TabEntry = TabEntry(tab: Item, isActive: bool)

  /** What the navigation area shows. */
  datatype HeaderView = LoadingPlaceholder | ErrorMessage(message: string) | TabBar(entries: seq<TabEntry>)

  /**
   * The if-chain of the render: loading first, then the error, then the tabs,
   * a tab being active when its id equals `activeTab`.
   */
  function View(loading: bool, error: Option<string>, tabs: seq<Item>, activeTab: Option<int>): (v: HeaderView)
    ensures v.LoadingPlaceholder? <==> loading
    ensures v.ErrorMessage? <==> !loading && error.Some?
    ensures v.ErrorMessage? ==> v.message == error.value
    ensures v.TabBar? ==> |v.entries| == |tabs|
    ensures v.TabBar? ==> forall k :: 0 <= k < |tabs| ==>
              v.entries[k].tab == tabs[k] && (v.entries[k].isActive <==> activeTab == Some(tabs[k].id))
  {
    if loading then LoadingPlaceholder
    else if error.Some? then ErrorMessage(error.value)
    else TabBar(seq(|tabs|, k requires 0 <= k < |tabs| => TabEntry(tabs[k], activeTab == Some(tabs[k].id))))
  }

  /** The number of active entries of a tab bar. */
  function ActiveEntries(entries: seq<TabEntry>): nat
  {
    if entries == [] then 0 else (if entries[0].isActive then 1 else 0) + ActiveEntries(entries[1..])
  }

  /** The active entries of a tab bar are the tabs whose id equals `activeTab`. */
  lemma {:induction false} ActiveEntriesCount(tabs: seq<Item>, active: int, entries: seq<TabEntry>)
    requires |entries| == |tabs|
    requires forall k :: 0 <= k < |tabs| ==> (entries[k].isActive <==> tabs[k].id == active)
    ensures ActiveEntries(entries) == CountWithId(tabs, active)
  {
    if tabs != [] {
      ActiveEntriesCount(tabs[1..], active, entries[1..]);
    }
  }

  /** With unique tab ids, at most one tab of the bar is shown active. */
  lemma AtMostOneActiveTab(tabs: seq<Item>, activeTab: Option<int>)
    requires UniqueIds(tabs)
    ensures var v := View(false, None, tabs, activeTab);
            v.TabBar? && ActiveEntries(v.entries) <= 1
  {
    var v := View(false, None, tabs, activeTab);
    match activeTab
    case None =>
      ActiveEntriesNone(v.entries);
    case Some(a) =>
      ActiveEntriesCount(tabs, a, v.entries);
      UniqueIdsCountAtMostOne(tabs, a);
  }

  /** A bar in which no entry is active has no active entries. */
  lemma {:induction false} ActiveEntriesNone(entries: seq<TabEntry>)
    requires forall k :: 0 <= k < |entries| ==> !entries[k].isActive
    ensures ActiveEntries(entries) == 0
  {
    if entries != [] {
      ActiveEntriesNone(entries[1..]);
    }
  }

  /** The component's state. */
  class Header {
    var tabs: seq<Item>
    var activeTab: Option<int>
    var loading: bool
    var error: Option<string>
    /** The dependencies the load effect last ran with; `None` before mount. */
    var deps: Option<Deps>

    ghost predicate Valid()
      reads this
    {
      && (loading ==> error == None)
      && (error.Some? ==> error.value == LoadError)
    }

    function CurrentView(): HeaderView
      reads this
    {
      View(loading, error, tabs, activeTab)
    }

    /** The initial state: no tabs, no active tab, loading, no error. */
    constructor ()
      ensures Valid()
      ensures tabs == [] && activeTab == None && loading && error == None && deps == None
      ensures CurrentView() == LoadingPlaceholder
    {
      tabs := [];
      activeTab := None;
      loading := true;
      error := None;
      deps := None;
    }

    /**
     * After a render, the effect runs (and a load starts) only on mount or when
     * `role` or `authToken` differs from the previous run.
     */
    method Effect(role: string, authToken: string) returns (started: bool)
      requires Valid()
      modifies this
      ensures Valid()
      ensures started <==> old(deps) != Some(Deps(role, authToken))
      ensures deps == Some(Deps(role, authToken))
      ensures tabs == old(tabs) && activeTab == old(activeTab)
      ensures started ==> loading && error == None
      ensures !started ==> loading == old(loading) && error == old(error)
    {
      started := deps != Some(Deps(role, authToken));
      deps := Some(Deps(role, authToken));
      if started {
        BeginLoad();
      }
    }

    /** `loadTabs` up to its await: `setLoading(true)`, `setError(null)`. */
    method BeginLoad()
      requires Valid()
      modifies this`loading, this`error
      ensures Valid()
      ensures loading && error == None
    {
      loading := true;
      error := None;
    }

    /** `loadTabs` after its await: the rest of the `try`, or the `catch`, then the `finally`. */
    method FinishLoad(result: FetchResult)
      requires Valid()
      modifies this`tabs, this`activeTab, this`loading, this`error
      ensures Valid()
      ensures !loading
      ensures result.Fetched? ==>
                tabs == result.tabs && error == old(error) &&
                activeTab == (if |result.tabs| > 0 then Some(result.tabs[0].id) else old(activeTab))
      ensures result.FetchFailed? ==>
                error == Some(LoadError) && tabs == FallbackTabs() && activeTab == Some(1)
    {
      match result {
        case Fetched(fetched) =>
          tabs := fetched;
          if |fetched| > 0 {
            activeTab := Some(fetched[0].id);
          }
        case FetchFailed =>
          error := Some(LoadError);
          tabs := FallbackTabs();
          activeTab := Some(1);
      }
      loading := false;
    }

    /**
     * One run of `loadTabs` with no other load interleaved. The fetch resolves
     * to `fetchAvailableTabs(role)` unless `fetchThrew`. Either way the first tab,
     * id 1, ends up active.
     */
    method LoadTabs(role: string, fetchThrew: bool)
      requires Valid()
      modifies this`tabs, this`activeTab, this`loading, this`error
      ensures Valid()
      ensures !loading && activeTab == Some(1)
      ensures !fetchThrew ==> error == None && tabs == FetchAvailableTabs(role)
      ensures fetchThrew ==> error == Some(LoadError) && tabs == FallbackTabs()
      ensures fetchThrew ==> CurrentView() == ErrorMessage(LoadError)
      ensures !fetchThrew ==> CurrentView().TabBar? && |CurrentView().entries| == |tabs|
    {
      BeginLoad();
      if fetchThrew {
        FinishLoad(FetchFailed);
      } else {
        FetchedTabsWellFormed(role);
        FinishLoad(Fetched(FetchAvailableTabs(role)));
      }
    }

    /** A click on a tab of the tab bar makes it the active one. */
    method ClickTab(id: int)
      requires Valid() && CurrentView().TabBar? && id in Ids(tabs)
      modifies this`activeTab
      ensures Valid() && activeTab == Some(id)
      ensures CurrentView().TabBar?
      ensures forall k :: 0 <= k < |tabs| ==> (CurrentView().entries[k].isActive <==> tabs[k].id == id)
    {
      activeTab := Some(id);
    }
  }
}
