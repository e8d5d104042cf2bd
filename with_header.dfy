/**
 * The header produced by the higher-order component factory
 * (src/components/hoc/withHeader.jsx): `withHeader(tabs)` fixes a tab list, and
 * the header it returns shows the tabs its `visibleTabs` prop allows and keeps
 * the active tab as state.
 */
module WithHeader {
  import opened Wrappers
  import opened Navigation

  /** `useState(visibleTabs[0])`: the first listed id, or `undefined` for an empty list. */
  function InitialActiveTab(visibleTabs: seq<int>): (a: Option<int>)
    ensures a.Some? <==> visibleTabs != []
    ensures a.Some? ==> a.value in visibleTabs
    ensures visibleTabs != [] ==> a == Some(visibleTabs[0])
  {
    if visibleTabs == [] then None else Some(visibleTabs[0])
  }

  /** The header component made by `withHeader(factoryTabs)`, with its props and state. */
  class Header {
    /** The list fixed by the factory call. */
    const factoryTabs: seq<Item>
    /** The `visibleTabs` prop. */
    const visibleTabs: seq<int>
    var activeTab: Option<int>

    /** `displayTabs`: the factory's tabs that the prop allows, in factory order. */
    function DisplayTabs(): (d: seq<Item>)
      ensures forall x :: x in d <==> x in factoryTabs && x.id in visibleTabs
    {
      VisibleItems(factoryTabs, visibleTabs)
    }

    /** A displayed tab is rendered active when its id equals `activeTab`. */
    predicate IsActive(tab: Item)
      reads this
    {
      activeTab == Some(tab.id)
    }

    constructor (tabs: seq<Item>, visible: seq<int>)
      ensures factoryTabs == tabs && visibleTabs == visible
      ensures activeTab == InitialActiveTab(visible)
    {
      factoryTabs := tabs;
      visibleTabs := visible;
      activeTab := InitialActiveTab(visible);
    }

    /** A click on a displayed tab makes it the active one. */
    method ClickTab(id: int)
      requires id in Ids(DisplayTabs())
      modifies this`activeTab
      ensures activeTab == Some(id)
      ensures forall x :: x in DisplayTabs() ==> (IsActive(x) <==> x.id == id)
    {
      activeTab := Some(id);
    }

    /** When the factory's ids are unique, at most one displayed tab is active. */
    lemma AtMostOneActive()
      requires UniqueIds(factoryTabs)
      ensures forall j, k :: 0 <= j < k < |DisplayTabs()| ==>
                !(IsActive(DisplayTabs()[j]) && IsActive(DisplayTabs()[k]))
    {
      VisibleItemsKeepsUniqueIds(factoryTabs, visibleTabs);
    }
  }

  /**
   * The initial active tab is the first listed id even when the factory has no
   * tab with that id, in which case no displayed tab is active.
   */
  lemma InitialActiveMayBeHidden(tabs: seq<Item>, visible: seq<int>)
    requires visible != [] && visible[0] !in Ids(tabs)
    ensures InitialActiveTab(visible) == Some(visible[0])
    ensures forall x :: x in VisibleItems(tabs, visible) ==> Some(x.id) != InitialActiveTab(visible)
  {
    forall x | x in VisibleItems(tabs, visible) ensures x.id != visible[0] {
      var k :| 0 <= k < |tabs| && tabs[k] == x;
      assert Ids(tabs)[k] == x.id;
    }
  }
}
