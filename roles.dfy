/**
 * The role policy table (src/config/roleConfig.js): the three role names and,
 * per role, the ids each surface may show.
 */
module Roles {
  import opened Wrappers
  import opened Navigation

  /** The values of `ROLES`. */
  datatype Role = Basic | Standard | Premium
  {
    /** The string the application uses for the role. */
    function Name(): string
    {
      match this
      case Basic => "basic"
      case Standard => "standard"
      case Premium => "premium"
    }
  }

  /** The role whose name is `s`, if any: the key lookup of a table keyed by role name. */
  function ParseRole(s: string): (r: Option<Role>)
    ensures r.Some? ==> r.value.Name() == s
    ensures r.None? <==> forall role: Role :: role.Name() != s
  {
    if s == "basic" then Some(Basic)
    else if s == "standard" then Some(Standard)
    else if s == "premium" then Some(Premium)
    else None
  }

  /** One row of `roleConfig`. */
  datatype RolePolicy = RolePolicy(headerTabs: seq<int>, sidebarTabs: seq<int>, mainContentCards: seq<int>)

  /** The three list keys of a row, by the strings used to select them. */
  datatype ListKey = HeaderTabsKey | SidebarTabsKey | MainContentCardsKey

  function ParseKey(s: string): (k: Option<ListKey>)
    ensures k == Some(HeaderTabsKey) <==> s == "headerTabs"
    ensures k == Some(SidebarTabsKey) <==> s == "sidebarTabs"
    ensures k == Some(MainContentCardsKey) <==> s == "mainContentCards"
  {
    if s == "headerTabs" then Some(HeaderTabsKey)
    else if s == "sidebarTabs" then Some(SidebarTabsKey)
    else if s == "mainContentCards" then Some(MainContentCardsKey)
    else None
  }

  function Select(p: RolePolicy, key: ListKey): seq<int>
  {
    match key
    case HeaderTabsKey => p.headerTabs
    case SidebarTabsKey => p.sidebarTabs
    case MainContentCardsKey => p.mainContentCards
  }

  /** The row of `roleConfig` for a role. */
  function Policy(role: Role): RolePolicy
  {
    match role
    case Basic => RolePolicy([1, 3, 6, 9], [1, 3, 6, 9], [1, 3, 6, 9])
    case Standard => RolePolicy([1, 2, 4, 6, 8, 10], [1, 2, 4, 6, 8, 10], [1, 2, 4, 6, 8, 10])
    case Premium => RolePolicy([1, 2, 3, 4, 5, 6, 7, 8, 9, 10], [1, 2, 3, 4, 5, 6, 7, 8, 9, 10],
                               [1, 2, 3, 4, 5, 6, 7, 8, 9, 10, 11, 12])
  }

  /** `roleConfig[role]`: a row for the three role names, `undefined` otherwise. */
  function RoleConfig(role: string): (p: Option<RolePolicy>)
    ensures p.Some? <==> role in {"basic", "standard", "premium"}
  {
    match ParseRole(role)
    case Some(r) => Some(Policy(r))
    case None => None
  }

  /** getVisibleTabs: `roleConfig[role]?.[type] || []`. */
  function VisibleTabs(role: string, listType: string): (r: seq<int>)
    ensures RoleConfig(role).None? || ParseKey(listType).None? ==> r == []
    ensures forall rl: Role, key: ListKey ::
              role == rl.Name() && ParseKey(listType) == Some(key) ==> r == Select(Policy(rl), key)
  {
    match (RoleConfig(role), ParseKey(listType))
    case (Some(p), Some(key)) => Select(p, key)
    case _ => []
  }

  /** The catalog a list key selects from. */
  function CatalogFor(key: ListKey): (c: seq<Item>)
    ensures IdsRunFromOne(c) && |c| == CatalogSize(key)
  {
    match key
    case HeaderTabsKey => HeaderTabs()
    case SidebarTabsKey => SidebarTabs()
    case MainContentCardsKey => ContentCards()
  }

  function CatalogSize(key: ListKey): nat
  {
    if key == MainContentCardsKey then 12 else 10
  }

  /** The counts the login page advertises on each role card. */
  function AdvertisedCount(role: Role, key: ListKey): nat
  {
    match role
    case Basic => 4
    case Standard => 6
    case Premium => if key == MainContentCardsKey then 12 else 10
  }

  /**
   * Every list of the table is strictly ascending (hence free of duplicates),
   * draws its ids from its catalog, and is as long as the role card advertises.
   */
  lemma PolicyListsWellFormed(role: Role, key: ListKey)
    ensures StrictlyIncreasing(Select(Policy(role), key))
    ensures forall i :: i in Select(Policy(role), key) ==> 1 <= i <= CatalogSize(key)
    ensures |Select(Policy(role), key)| == AdvertisedCount(role, key)
  {
    match role
    case Basic =>
    case Standard =>
    case Premium =>
  }

  /** Basic lists are all [1,3,6,9]; standard lists are all [1,2,4,6,8,10]. */
  lemma BasicAndStandardLists(key: ListKey)
    ensures Select(Policy(Basic), key) == [1, 3, 6, 9]
    ensures Select(Policy(Standard), key) == [1, 2, 4, 6, 8, 10]
  {
  }

  /** Premium header and sidebar lists are 1..10 and its content list 1..12: each list is its whole catalog. */
  lemma PremiumListsCoverCatalogs()
    ensures Policy(Premium).headerTabs == Ids(HeaderTabs())
    ensures Policy(Premium).sidebarTabs == Ids(SidebarTabs())
    ensures Policy(Premium).mainContentCards == Ids(ContentCards())
  {
  }

  /** The tiers are not nested: ids 3 and 9 are basic but not standard. */
  lemma TiersNotNested()
    ensures forall key: ListKey ::
              3 in Select(Policy(Basic), key) && 3 !in Select(Policy(Standard), key) &&
              9 in Select(Policy(Basic), key) && 9 !in Select(Policy(Standard), key)
  {
  }

  /**
   * Filtering a surface's catalog with a role's list shows exactly the listed
   * entries, in catalog order, so the number shown is the count advertised on
   * the role's card.
   */
  lemma PolicyShowsAdvertisedCounts(role: Role, key: ListKey)
    ensures Ids(VisibleItems(CatalogFor(key), Select(Policy(role), key))) == Select(Policy(role), key)
    ensures |VisibleItems(CatalogFor(key), Select(Policy(role), key))| == AdvertisedCount(role, key)
  {
    PolicyListsWellFormed(role, key);
    PolicyListCovered(CatalogFor(key), Select(Policy(role), key));
  }

  /** A premium user sees every entry of every catalog. */
  lemma PremiumSeesEverything()
    ensures VisibleItems(HeaderTabs(), Policy(Premium).headerTabs) == HeaderTabs()
    ensures VisibleItems(SidebarTabs(), Policy(Premium).sidebarTabs) == SidebarTabs()
    ensures VisibleItems(ContentCards(), Policy(Premium).mainContentCards) == ContentCards()
  {
    PremiumListsCoverCatalogs();
    CatalogIdsCover(HeaderTabs(), Policy(Premium).headerTabs);
    CatalogIdsCover(SidebarTabs(), Policy(Premium).sidebarTabs);
    CatalogIdsCover(ContentCards(), Policy(Premium).mainContentCards);
  }

  /** A list equal to a catalog's ids shows the whole catalog. */
  lemma CatalogIdsCover(catalog: seq<Item>, ids: seq<int>)
    requires ids == Ids(catalog)
    ensures VisibleItems(catalog, ids) == catalog
  {
    forall x | x in catalog ensures x.id in ids {
      var k :| 0 <= k < |catalog| && catalog[k] == x;
      assert ids[k] == x.id;
    }
    AllIdsEverythingVisible(catalog, ids);
  }

  /** An ascending list of ids within 1..|catalog| selects exactly those ids from a catalog numbered from one. */
  lemma PolicyListCovered(catalog: seq<Item>, ids: seq<int>)
    requires IdsRunFromOne(catalog) && StrictlyIncreasing(ids)
    requires forall i :: i in ids ==> 1 <= i <= |catalog|
    ensures Ids(VisibleItems(catalog, ids)) == ids
  {
    IdsRunFromOneAscending(catalog);
    forall i | i in ids ensures i in Ids(catalog) {
      assert Ids(catalog)[i - 1] == i;
    }
    VisibleIdsOfAscendingCatalog(catalog, ids);
  }
}
