/**
 * The application roots (src/App.jsx and microfrontend/host/src/App.jsx): the
 * in-memory session both keep, the role switch that picks a layout module, and
 * the host's routing of the role's lists to its three regions.
 */
module App {
  import opened Wrappers
  import opened Roles
  import Login

  /** The session fields as values. */
  datatype SessionState = SessionState(isLoggedIn: bool, userRole: Option<string>, username: string)

  const LoggedOut := SessionState(false, None, "")

  /** A role is recorded exactly while someone is logged in: the invariant the session keeps and rendering relies on. */
  predicate WellFormed(s: SessionState)
  {
    s.isLoggedIn <==> s.userRole.Some?
  }

  /** The session held at the root of both applications. */
  class Session {
    var isLoggedIn: bool
    var userRole: Option<string>
    var username: string

    /** The session's fields always form a well-formed state. */
    ghost predicate Valid()
      reads this
    {
      WellFormed(State())
    }

    function State(): SessionState
      reads this
    {
      SessionState(isLoggedIn, userRole, username)
    }

    /** The initial state: logged out, no role, empty username. */
    constructor ()
      ensures Valid() && State() == LoggedOut
    {
      isLoggedIn := false;
      userRole := None;
      username := "";
    }

    /** handleLogin(role, user), called by the login page with the selected role's name. */
    method HandleLogin(role: string, user: string)
      modifies this
      ensures Valid()
      ensures State() == SessionState(true, Some(role), user)
    {
      userRole := Some(role);
      username := user;
      isLoggedIn := true;
    }

    /** handleLogout: back to the initial state, whatever the state was. */
    method HandleLogout()
      modifies this
      ensures Valid()
      ensures State() == LoggedOut
    {
      isLoggedIn := false;
      userRole := None;
      username := "";
    }
  }

  /** A client of the session: logging out twice is the same as logging out once. */
  method LogoutTwice(s: Session) returns (once: SessionState, twice: SessionState)
    modifies s
    ensures once == twice == LoggedOut
  {
    s.HandleLogout();
    once := s.State();
    s.HandleLogout();
    twice := s.State();
  }

  // ---------------------------------------------------------------------------
  // src/App.jsx: renderLayout
  // ---------------------------------------------------------------------------

  /** The lazily loaded layout modules, one per role. */
  datatype Layout = BasicLayout | StandardLayout | PremiumLayout

  function LayoutFor(role: Role): Layout
  {
    match role
    case Basic => BasicLayout
    case Standard => StandardLayout
    case Premium => PremiumLayout
  }

  datatype AppView =
    | LoginScreen
    | LayoutScreen(layout: Layout, config: RolePolicy, username: string)
    | InvalidRole

  /**
   * What src/App.jsx renders: the login page when logged out, otherwise the
   * role's own layout given `roleConfig[role]`, or "Invalid role".
   */
  function RenderApp(s: SessionState): (v: AppView)
    requires WellFormed(s)
    ensures !s.isLoggedIn <==> v == LoginScreen
    ensures v.LayoutScreen? <==> s.isLoggedIn && ParseRole(s.userRole.value).Some?
    ensures v.LayoutScreen? ==>
              var role := ParseRole(s.userRole.value).value;
              s.userRole.value == role.Name() && v.layout == LayoutFor(role) &&
              v.config == Policy(role) && RoleConfig(s.userRole.value) == Some(v.config) &&
              v.username == s.username
    ensures v == InvalidRole <==> s.isLoggedIn && RoleConfig(s.userRole.value).None?
  {
    if !s.isLoggedIn then LoginScreen
    else
      match ParseRole(s.userRole.value)
      case Some(role) => LayoutScreen(LayoutFor(role), Policy(role), s.username)
      case None => InvalidRole
  }

  /** Each role gets its own layout: distinct roles never share a layout module. */
  lemma LayoutsAreDistinct(r1: Role, r2: Role)
    ensures LayoutFor(r1) == LayoutFor(r2) <==> r1 == r2
  {
  }

  /**
   * A successful submit of the login form, passed to handleLogin, renders the
   * selected role's own layout with that role's row of the table.
   */
  lemma LoginShowsOwnLayout(username: string, password: string, selected: Option<Role>)
    requires Login.SubmitOutcome(username, password, selected).LoggedIn?
    ensures var o := Login.SubmitOutcome(username, password, selected);
            RenderApp(SessionState(true, Some(o.role.Name()), o.username))
              == LayoutScreen(LayoutFor(selected.value), Policy(selected.value), username)
  {
    var o := Login.SubmitOutcome(username, password, selected);
    assert ParseRole(o.role.Name()) == Some(o.role);
  }

  // ---------------------------------------------------------------------------
  // microfrontend/host/src/App.jsx: the three remote regions
  // ---------------------------------------------------------------------------

  datatype HeaderProps = HeaderProps(role: string, visibleTabs: seq<int>, username: string)
  datatype SidebarProps = SidebarProps(role: string, visibleTabs: seq<int>)
  datatype ContentProps = ContentProps(role: string, visibleCards: seq<int>)

  /**
   * What the host renders. For a role outside the table `roleConfig[userRole]`
   * is `undefined` and reading its lists throws, shown as `ConfigUndefined`.
   */
  datatype HostView =
    | HostLogin
    | Regions(header: HeaderProps, sidebar: SidebarProps, content: ContentProps)
    | ConfigUndefined

  function RenderHost(s: SessionState): (v: HostView)
    requires WellFormed(s)
    ensures !s.isLoggedIn <==> v == HostLogin
    ensures v.Regions? <==> s.isLoggedIn && RoleConfig(s.userRole.value).Some?
    ensures v.Regions? ==>
              var role := s.userRole.value;
              var p := RoleConfig(role).value;
              && v.header == HeaderProps(role, p.headerTabs, s.username)
              && v.sidebar == SidebarProps(role, p.sidebarTabs)
              && v.content == ContentProps(role, p.mainContentCards)
  {
    if !s.isLoggedIn then HostLogin
    else
      match RoleConfig(s.userRole.value)
      case Some(config) =>
        var role := s.userRole.value;
        Regions(HeaderProps(role, config.headerTabs, s.username),
                SidebarProps(role, config.sidebarTabs),
                ContentProps(role, config.mainContentCards))
      case None => ConfigUndefined
  }

  /**
   * After a login with one of the three roles, every host region receives the
   * same role and its own list of that role's row, which is what
   * `getVisibleTabs(role, key)` returns for the region's key.
   */
  lemma HostRoutesRoleLists(role: Role, user: string)
    ensures var v := RenderHost(SessionState(true, Some(role.Name()), user));
            && v.Regions?
            && v.header.role == v.sidebar.role == v.content.role == role.Name()
            && v.header.visibleTabs == VisibleTabs(role.Name(), "headerTabs")
            && v.sidebar.visibleTabs == VisibleTabs(role.Name(), "sidebarTabs")
            && v.content.visibleCards == VisibleTabs(role.Name(), "mainContentCards")
            && v.header.username == user
  {
    assert ParseKey("headerTabs") == Some(HeaderTabsKey);
  }

  /** Both roots agree: a role the host routes is a role src/App.jsx gives a layout, and the same row. */
  lemma RootsAgree(s: SessionState)
    requires WellFormed(s)
    ensures RenderApp(s) == LoginScreen <==> RenderHost(s) == HostLogin
    ensures RenderApp(s) == InvalidRole <==> RenderHost(s) == ConfigUndefined
    ensures RenderApp(s).LayoutScreen? ==>
              RenderHost(s).Regions? && RenderHost(s).header.visibleTabs == RenderApp(s).config.headerTabs
  {
  }
}
