/**
 * The simulated remote tab catalog
 * (microfrontend/microfrontend-header/src/config/tabsConfig.js). The delays both
 * functions await are timers only, so both operations are pure lookups here.
 */
module TabsConfig {
  import opened Wrappers
  import opened Navigation
  import opened Roles

  /** The payload of `tabsFromAPI` for one of its three keys. */
  function TabsFromApi(role: Role): (tabs: seq<Item>)
  {
    match role
    case Basic => [Tab(1, "Dashboard"), Tab(2, "Analytics"), Tab(3, "Reports")]
    case Standard =>
      [ Tab(1, "Dashboard"), Tab(2, "Analytics"), Tab(3, "Reports"), Tab(4, "Settings"),
        Tab(5, "Projects"), Tab(6, "Products") ]
    case Premium =>
      [ Tab(1, "Dashboard"), Tab(2, "Analytics"), Tab(3, "Reports"), Tab(4, "Settings"),
        Tab(5, "Projects"), Tab(6, "Products"), Tab(7, "Team"), Tab(8, "Users"),
        Tab(9, "Billing"), Tab(10, "Help") ]
  }

  /** How many tabs each role receives from the simulated API. */
  function FetchedCount(role: Role): nat
  {
    match role
    case Basic => 3
    case Standard => 6
    case Premium => 10
  }

  /** fetchAvailableTabs: `tabsFromAPI[role] || tabsFromAPI.basic`. */
  function FetchAvailableTabs(role: string): (tabs: seq<Item>)
    ensures ParseRole(role).None? ==> tabs == TabsFromApi(Basic)
    ensures forall r: Role :: role == r.Name() ==> tabs == TabsFromApi(r)
  {
    match ParseRole(role)
    case Some(r) => TabsFromApi(r)
    case None => TabsFromApi(Basic)
  }

  /**
   * Each role's payload is the first 3, 6 or 10 entries of the shared header
   * catalog: ids 1..n ascending, with the catalog's labels.
   */
  lemma {:induction false} FetchedTabsArePrefixOfCatalog(role: Role)
    ensures TabsFromApi(role) == HeaderTabs()[..FetchedCount(role)]
    ensures |TabsFromApi(role)| == FetchedCount(role) && IdsRunFromOne(TabsFromApi(role))
  {
    var c := HeaderTabs();
    match role
    case Basic =>
      assert TabsFromApi(role) == [c[0], c[1], c[2]];
    case Standard =>
      assert TabsFromApi(role) == [c[0], c[1], c[2], c[3], c[4], c[5]];
    case Premium =>
      assert TabsFromApi(role) == c;
  }

  /** Whatever the role string, the fetched list is one of the three payloads, numbered from one. */
  lemma FetchedTabsWellFormed(role: string)
    ensures |FetchAvailableTabs(role)| in {3, 6, 10}
    ensures IdsRunFromOne(FetchAvailableTabs(role)) && UniqueIds(FetchAvailableTabs(role))
  {
    var r := if ParseRole(role).Some? then ParseRole(role).value else Basic;
    FetchedTabsArePrefixOfCatalog(r);
    IdsRunFromOneAscending(FetchAvailableTabs(role));
  }

  /** The payloads grow with the tier: basic is a prefix of standard, standard of premium. */
  lemma FetchedTabsNested()
    ensures TabsFromApi(Basic) == TabsFromApi(Standard)[..3]
    ensures TabsFromApi(Standard) == TabsFromApi(Premium)[..6]
  {
    FetchedTabsArePrefixOfCatalog(Basic);
    FetchedTabsArePrefixOfCatalog(Standard);
    FetchedTabsArePrefixOfCatalog(Premium);
  }

  /** The object fetchTabsFromBackend resolves to. */
  datatype BackendResponse = BackendResponse(tabs: seq<Item>, permissions: seq<string>)

  /**
   * fetchTabsFromBackend. `threw` says whether the body of its `try` threw; the
   * simulated body (a log line and a timer) never does, but the `catch` branch is
   * part of the code.
   */
  function FetchTabsFromBackend(authToken: string, threw: bool): (r: BackendResponse)
    ensures !threw ==> r.tabs == HeaderTabs()[..3] && r.permissions == ["read", "write"]
    ensures threw ==> r.tabs == HeaderTabs()[..1] && r.permissions == ["read"]
  {
    var c := HeaderTabs();
    assert c[..3] == [c[0], c[1], c[2]] && c[..1] == [c[0]];
    if threw then BackendResponse([Tab(1, "Dashboard")], ["read"])
    else BackendResponse([Tab(1, "Dashboard"), Tab(2, "Analytics"), Tab(3, "Reports")], ["read", "write"])
  }

  /** The token has no influence on the response. */
  lemma BackendIgnoresToken(token1: string, token2: string, threw: bool)
    ensures FetchTabsFromBackend(token1, threw) == FetchTabsFromBackend(token2, threw)
  {
  }
}
