# Role-gated navigation: a Dafny model

The application is a front-end demo in which a user logs in as one of three
tiers (basic, standard, premium) and then sees a header, a sidebar and a main
content area whose tabs and cards are filtered by role. This project models the
logic under the rendering code and proves what it guarantees:

- **Catalogs and the visibility filter** (`navigation.dfy`, module `Navigation`):
  the three catalogs of the shared navigation configuration, `getVisibleItems`
  and `getItemsByRole`. The filter is the same expression the `with*` factories,
  the microfrontend `Header`, `Sidebar` and `MainContent`, and the layout sidebar
  and main-content components apply to their own lists, so its lemmas are stated
  for any catalog. (`HeaderDynamic` does not filter: it shows the list
  `fetchAvailableTabs` returns, where the role lookup does the gating.) The filter returns exactly the allowed entries in catalog order
  (a complete characterisation, `VisibleItemsUnique`), ignores unknown ids,
  order and duplicates of the id list, and is idempotent.
- **Role policy table** (`roles.dfy`, module `Roles`): `ROLES`, `roleConfig` and
  `getVisibleTabs`, with the shape of every list and its agreement with the counts
  advertised on the login page's role cards.
- **Login form** (`login.dfy`, module `Login`): the credential table and the guard
  chain of `handleSubmit`, as a pure outcome function and as a class whose
  `HandleSubmit` method writes the `error` field and returns the `onLogin` call.
- **Simulated tab backend** (`tabs_config.dfy`, module `TabsConfig`):
  `fetchAvailableTabs` and `fetchTabsFromBackend` as pure lookups.
- **Dynamic header** (`header_dynamic.dfy`, module `HeaderDynamic`): the state of
  `HeaderDynamic` as a class, the effect that starts a load, both halves of
  `loadTabs` around its await, and the loading / error / tab-bar view.
- **Application roots** (`session.dfy`, module `App`): the session fields both
  `App.jsx` files keep, `renderLayout`'s role switch, and the host's routing of
  the role's three lists to the header, sidebar and content regions.
- **Card** (`card.dfy`, module `Cards`): expand / favourite / share with the view
  counter, as a class proved against a step function, with a closed form of the
  state after any sequence of clicks.
- **Higher-order header** (`with_header.dfy`, module `WithHeader`): the tab list
  fixed by the factory, the filtered display list and the active-tab state.

JavaScript values are modelled as follows: role names and list keys are
strings, and a lookup in a table keyed by role name is `Roles.ParseRole`
(absent keys are `None`, JavaScript's `undefined`); `null` and `undefined`
state values are `Option.None`; a role card click can only select one of the
three roles, so the login form's selection is `Option<Role>`. `label` is a Dafny
keyword, so a tab's label is the field `text` of `Navigation.Item.Tab`.

Where a lookup misses, the code degrades instead of failing. `getVisibleTabs`
returns `[]` for an unknown role. `fetchAvailableTabs` falls back to the basic
list. `HeaderDynamic` installs whatever load finishes last and never discards a
stale result. The application keeps no bundle cache of its own: reuse of a
loaded layout or region bundle comes from `lazy()` and `import()`, which are
listed under Left out.

## Model

| member | source | states |
|---|---|---|
| `Navigation.HeaderTabs` | microfrontend/shared/config/navigationConfig.js:8-19 | the header catalog has 10 tabs with ids 1..10 in order |
| `Navigation.SidebarTabs` | microfrontend/shared/config/navigationConfig.js:22-33 | the sidebar catalog has 10 tabs with ids 1..10 in order |
| `Navigation.ContentCards` | microfrontend/shared/config/navigationConfig.js:36-49 | the content catalog has 12 cards with ids 1..12 in order |
| `Navigation.IdsRunFromOneAscending` | microfrontend/shared/config/navigationConfig.js:8-49 | catalogs numbered from one have strictly ascending, unique ids |
| `Navigation.VisibleItems` | microfrontend/shared/config/navigationConfig.js:57-59 | an entry is in the result iff it is in the catalog and its id is allowed; the result is no longer than the catalog |
| `Navigation.VisibleItemsIsSubsequence` | microfrontend/shared/config/navigationConfig.js:58 | the result keeps catalog order: it is a subsequence of the catalog |
| `Navigation.VisibleItemsMultiplicity` | microfrontend/shared/config/navigationConfig.js:58 | every entry occurs in the result exactly as often as in the catalog if its id is allowed, otherwise not at all |
| `Navigation.VisibleItemsUnique` | microfrontend/shared/config/navigationConfig.js:57-59 | any order-preserving list holding exactly the allowed entries with the catalog's multiplicities is the filter's result |
| `Navigation.VisibleItemsAppend` | microfrontend/shared/config/navigationConfig.js:58 | filtering a concatenation is the concatenation of the filtered parts |
| `Navigation.NoIdsNothingVisible` | microfrontend/shared/config/navigationConfig.js:58 | an empty id list shows nothing |
| `Navigation.AllIdsEverythingVisible` | microfrontend/shared/config/navigationConfig.js:58 | an id list covering every catalog id returns the catalog unchanged |
| `Navigation.VisibleItemsOnlyIdSetMatters` | microfrontend/shared/config/navigationConfig.js:58 | two id lists with the same members give the same result: order and duplicates do not matter |
| `Navigation.VisibleItemsIgnoresUnknownIds` | microfrontend/shared/config/navigationConfig.js:58 | appending ids that no catalog entry has does not change the result |
| `Navigation.VisibleItemsIdempotent` | microfrontend/shared/config/navigationConfig.js:58 | filtering the result again with the same ids returns it unchanged |
| `Navigation.VisibleItemsKeepsUniqueIds` | microfrontend/shared/config/navigationConfig.js:58 | filtering a catalog with unique ids gives a list with unique ids |
| `Navigation.VisibleIdsOfAscendingCatalog` | microfrontend/shared/config/navigationConfig.js:58 | for an ascending catalog and an ascending id list drawn from it, the result's ids are exactly the list |
| `Navigation.ItemsByRole` | microfrontend/shared/config/navigationConfig.js:68-71 | a role missing from the table shows nothing; a present role shows the filter of its id list |
| `Navigation.UniqueIdsCountAtMostOne` | src/components/hoc/withHeader.jsx:22 | in a list with unique ids at most one entry matches any id, so at most one tab can be active |
| `Roles.ParseRole` | src/config/roleConfig.js:2-6 | a string names a role iff it is one of `basic`, `standard`, `premium`, and then that role's name |
| `Roles.ParseKey` | src/config/roleConfig.js:27 | the three list keys are selected by exactly the strings `headerTabs`, `sidebarTabs`, `mainContentCards` |
| `Roles.RoleConfig` | src/config/roleConfig.js:8-24 | the table has a row exactly for the three role names |
| `Roles.VisibleTabs` | src/config/roleConfig.js:26-28 | a known role and key give that row's list; an unknown role or key gives `[]` |
| `Roles.PolicyListsWellFormed` | src/config/roleConfig.js:8-24 | every list is strictly ascending, draws from its catalog's ids and has the length its role card advertises (4, 6, 10 or 12) |
| `Roles.BasicAndStandardLists` | src/config/roleConfig.js:9-18 | all basic lists are [1,3,6,9] and all standard lists [1,2,4,6,8,10] |
| `Roles.PremiumListsCoverCatalogs` | src/config/roleConfig.js:19-23 | the premium lists are exactly the ids of the header, sidebar and content catalogs (1..10, 1..10, 1..12) |
| `Roles.TiersNotNested` | src/config/roleConfig.js:9-18 | ids 3 and 9 are basic on every surface but not standard: the tiers are not nested |
| `Roles.PolicyShowsAdvertisedCounts` | src/components/auth/LoginPage.jsx:88-122 | filtering a surface's catalog with a role's list shows exactly the listed ids, as many entries as the role card advertises |
| `Roles.PremiumSeesEverything` | src/config/roleConfig.js:19-23 | a premium user sees every entry of every catalog |
| `Login.ValidCredentials` | src/components/auth/LoginPage.jsx:11-15 | each role's username is its name and its password the name followed by `123` |
| `Login.SubmitOutcome` | src/components/auth/LoginPage.jsx:17-40 | an empty field gives the missing-fields error whatever the role; filled fields with no role give the select-role error; login happens iff a role is selected and the pair is that role's; otherwise the invalid-credentials error |
| `Login.CredentialsAreRoleSpecific` | src/components/auth/LoginPage.jsx:31-35 | another role's valid pair is rejected with the invalid-credentials error |
| `Login.LoginForm.constructor` | src/components/auth/LoginPage.jsx:5-8 | the form starts with no role, empty fields and no error |
| `Login.LoginForm.SelectRole` | src/components/auth/LoginPage.jsx:82 | a role card click selects that role |
| `Login.LoginForm.SetUsername` | src/components/auth/LoginPage.jsx:57 | typing sets the username |
| `Login.LoginForm.SetPassword` | src/components/auth/LoginPage.jsx:69 | typing sets the password |
| `Login.LoginForm.HandleSubmit` | src/components/auth/LoginPage.jsx:17-40 | exactly one outcome per submit: the error is set to the guard chain's message, or it is cleared and `onLogin(role, username)` is called once |
| `TabsConfig.FetchAvailableTabs` | microfrontend/microfrontend-header/src/config/tabsConfig.js:9-49 | a known role gets its payload; any other string gets the basic payload |
| `TabsConfig.FetchedTabsArePrefixOfCatalog` | microfrontend/microfrontend-header/src/config/tabsConfig.js:20-46 | each payload is the first 3, 6 or 10 tabs of the shared header catalog, ids 1..n in order |
| `TabsConfig.FetchedTabsWellFormed` | microfrontend/microfrontend-header/src/config/tabsConfig.js:20-48 | for any role string the fetched list has 3, 6 or 10 tabs with unique ids numbered from one |
| `TabsConfig.FetchedTabsNested` | microfrontend/microfrontend-header/src/config/tabsConfig.js:21-45 | basic is a prefix of standard and standard a prefix of premium |
| `TabsConfig.FetchTabsFromBackend` | microfrontend/microfrontend-header/src/config/tabsConfig.js:55-93 | tabs 1..3 with `read`, `write`; when the body throws, the Dashboard tab alone with `read` |
| `TabsConfig.BackendIgnoresToken` | microfrontend/microfrontend-header/src/config/tabsConfig.js:77-84 | the response does not depend on the token |
| `HeaderDynamic.View` | microfrontend/microfrontend-header/src/HeaderDynamic.jsx:45-106 | loading shows the placeholder; otherwise an error shows its message and no tabs; otherwise every tab is shown in order, active iff its id equals `activeTab` |
| `HeaderDynamic.ActiveEntriesCount` | microfrontend/microfrontend-header/src/HeaderDynamic.jsx:89-96 | the number of active buttons is the number of tabs carrying the active id |
| `HeaderDynamic.AtMostOneActiveTab` | microfrontend/microfrontend-header/src/HeaderDynamic.jsx:89-96 | with unique tab ids at most one button is active |
| `HeaderDynamic.Header.constructor` | microfrontend/microfrontend-header/src/HeaderDynamic.jsx:12-15 | the header starts with no tabs, no active tab, loading and no error, showing the placeholder |
| `HeaderDynamic.Header.Effect` | microfrontend/microfrontend-header/src/HeaderDynamic.jsx:17-43 | a load starts exactly on mount or when `role` or `authToken` differs from the previous run |
| `HeaderDynamic.Header.BeginLoad` | microfrontend/microfrontend-header/src/HeaderDynamic.jsx:21-22 | every load begins with loading set and the error cleared |
| `HeaderDynamic.Header.FinishLoad` | microfrontend/microfrontend-header/src/HeaderDynamic.jsx:25-39 | success installs the fetched tabs and activates the first id (unchanged for an empty list); failure sets the error, the Dashboard fallback and active tab 1; loading ends either way |
| `HeaderDynamic.Header.LoadTabs` | microfrontend/microfrontend-header/src/HeaderDynamic.jsx:19-40 | an uninterrupted load ends with tab 1 active; on success the role's fetched tabs are shown, on failure only the error message |
| `HeaderDynamic.Header.ClickTab` | microfrontend/microfrontend-header/src/HeaderDynamic.jsx:89-96 | clicking a shown tab makes it, and only tabs with its id, active |
| `App.Session.constructor` | src/App.jsx:12-14 | the session starts logged out with no role and an empty username |
| `App.Session.HandleLogin` | src/App.jsx:16-29 | login records the role and username and sets logged in |
| `App.Session.HandleLogout` | src/App.jsx:31-35 | logout resets all three fields, whatever the state |
| `App.LogoutTwice` | src/App.jsx:31-35 | logging out twice leaves the same state as once |
| `App.RenderApp` | src/App.jsx:37-77 | logged out shows only the login page; a logged-in known role shows its own layout with its row of the table; any other role shows "Invalid role" |
| `App.LayoutsAreDistinct` | src/App.jsx:45-63 | distinct roles select distinct layout modules |
| `App.LoginShowsOwnLayout` | src/App.jsx:26-63 | a successful login submit, passed to handleLogin, renders the selected role's layout with its row |
| `App.RenderHost` | microfrontend/host/src/App.jsx:28-68 | logged out shows only the login page; a known role gives the header its `headerTabs`, the sidebar its `sidebarTabs` and the content its `mainContentCards`; an unknown role reaches the undefined config |
| `App.HostRoutesRoleLists` | microfrontend/host/src/App.jsx:32-61 | after a login with a role, all three regions receive that role and the lists `getVisibleTabs` returns for their keys |
| `App.RootsAgree` | microfrontend/host/src/App.jsx:28-32 | both roots show the login page, the broken-role state and a role's header list in the same sessions |
| `Cards.OnExpand` | src/components/common/Card.jsx:9-14 | expand toggles `isExpanded` and counts a view exactly on a collapsed-to-expanded transition |
| `Cards.OnFavorite` | src/components/common/Card.jsx:16-19 | favourite toggles only `isFavorite` |
| `Cards.StepKeepsViews` | src/components/common/Card.jsx:9-24 | no handler lowers the view count |
| `Cards.FavoriteTwice` | src/components/common/Card.jsx:16-19 | two favourite clicks restore the state |
| `Cards.RunState` | src/components/common/Card.jsx:5-24 | after any clicks, expanded iff an odd number of expand clicks, favourite iff an odd number of star clicks, and views = (expand clicks + 1) / 2 |
| `Cards.ViewCountMonotone` | src/components/common/Card.jsx:9-14 | the view count never decreases as clicks are added |
| `Cards.Card.constructor` | src/components/common/Card.jsx:5-7 | a card starts collapsed, not a favourite, with zero views |
| `Cards.Card.HandleExpand` | src/components/common/Card.jsx:9-14 | the fields follow the expand step and the click is recorded |
| `Cards.Card.HandleFavorite` | src/components/common/Card.jsx:16-19 | the fields follow the favourite step and the click is recorded |
| `Cards.Card.HandleShare` | src/components/common/Card.jsx:21-24 | sharing changes no field |
| `Cards.Card.ViewCountIsOpens` | src/components/common/Card.jsx:9-14 | the live view counter equals the number of times the card was opened |
| `WithHeader.InitialActiveTab` | src/components/hoc/withHeader.jsx:7 | the initial active tab is present iff the list is nonempty, and then it is the first listed id |
| `WithHeader.Header.DisplayTabs` | src/components/hoc/withHeader.jsx:9 | the displayed tabs are the factory's tabs whose ids the prop lists |
| `WithHeader.Header.constructor` | src/components/hoc/withHeader.jsx:5-7 | the header keeps the factory's tabs and the prop, and starts with the first listed id active |
| `WithHeader.Header.ClickTab` | src/components/hoc/withHeader.jsx:23 | clicking a displayed tab makes exactly the tabs with its id active |
| `WithHeader.Header.AtMostOneActive` | src/components/hoc/withHeader.jsx:22 | with unique factory ids no two displayed tabs are active |
| `WithHeader.InitialActiveMayBeHidden` | src/components/hoc/withHeader.jsx:7-9 | the first listed id is active even when no displayed tab has it, and then no tab is shown active |

## Left out

- Rendering: JSX markup, CSS class strings, the `alert` of the share button, `console` output and the `new Date()` in the card details.
- Code loading: `lazy()`, `Suspense` and dynamic `import()` in both roots, the per-role layout modules under `src/modules/`, and the module-federation build configuration. Neither the loading placeholders these show nor their reuse of a bundle that is already loaded or loading is modelled.
- The timer delays of `fetchAvailableTabs` and `fetchTabsFromBackend`: both are modelled as pure lookups.
- The development harnesses (`DevApp.jsx`) and the presentational `RoleSelector` and `Tab` components; of `Tab` only the click passing its id to the handler is used.
- The other copies of the filter (`withSidebar`, `withMainContent`, the microfrontend `Header`, `Sidebar` and `MainContent`, the layout components) and the constant per-role tab lists: each is the same expression as `Navigation.VisibleItems` over its own list.
- Inherited object keys: looking up `toString` and similar names in a JavaScript object table finds a prototype member; the model's tables hold only their own keys.
- `Navigation.ItemsByRole` takes a map from role name to an id list, as its documentation describes. Passing the role table of `roleConfig.js`, whose rows are objects, would make `includes` throw; that call is not modelled.
- `Login.LoginForm.SelectRole` accepts only the three roles, as the role cards do; an arbitrary selection string would make `validCredentials[selectedRole]` undefined and throw.
- `App.RenderApp` and `App.RenderHost` require `App.WellFormed`: a role is recorded exactly while someone is logged in. `App.Session` keeps this as its `Valid()` invariant from construction through every login and logout. A logged-in `null` role would throw in `renderLayout`.
- `HeaderDynamic.Header.ClickTab` requires the tab bar to be shown and the id to be a shown tab's, since the buttons exist only then. The `username` and `onLogout` props are presentation only.
- `HeaderDynamic.Header.LoadTabs` and `TabsConfig.FetchTabsFromBackend` take a flag saying whether the awaited step threw; the simulated code never throws, so the flag only exposes the `catch` branches.
- `WithHeader.Header`: the `visibleTabs` prop is fixed at construction. React keeps the active-tab state when the prop changes, and that later prop change is not modelled.
- Concurrency: overlapping loads of the dynamic header are expressible by interleaving `BeginLoad` and `FinishLoad`, but no property is proved about such interleavings; React's batching of state updates within one handler is modelled as the handler's sequential effect.
