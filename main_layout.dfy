/**
 * The layout around every protected page: the side menu as a function of the user's role, the
 * mobile drawer toggle, the header's name and title, and the logout button.
 */
module MainLayout {
  import opened Wrappers
  import opened Models
  import opened Http
  import opened AuthSlice
  import opened AuthApi
  import opened ProtectedRoute

  datatype MenuItem = MenuItem(text: string, path: string)

  /** A `navigate(path, {replace})` call. */
  datatype Navigation = Navigation(path: string, replace: bool)

  const DashboardItem := MenuItem("Dashboard", "/dashboard")
  const AssetsItem := MenuItem("Activos", "/assets")
  const WorkOrdersItem := MenuItem("Órdenes de Trabajo", "/work-orders")
  const InventoryItem := MenuItem("Inventario", "/inventory")
  const UsersItem := MenuItem("Usuarios", "/users")
  const SettingsItem := MenuItem("Configuración", "/settings")

  /** `user?.role === 'admin' || user?.role === 'manager'`. */
  predicate SeesUsers(user: Option<User>) {
    user.Some? && (user.value.role == Admin || user.value.role == Manager)
  }

  /** `menuItems`: the fixed entries, with Usuarios spliced in for administrators and managers. */
  function MenuItems(user: Option<User>): (items: seq<MenuItem>)
    ensures |items| == if SeesUsers(user) then 6 else 5
    ensures items[..4] == [DashboardItem, AssetsItem, WorkOrdersItem, InventoryItem]
    ensures items[|items| - 1] == SettingsItem
    ensures SeesUsers(user) ==> items[4] == UsersItem
    ensures (exists i :: 0 <= i < |items| && items[i].path == "/users") <==> SeesUsers(user)
  {
    var items := [DashboardItem, AssetsItem, WorkOrdersItem, InventoryItem]
               + (if SeesUsers(user) then [UsersItem] else [])
               + [SettingsItem];
    assert SeesUsers(user) ==> items[4].path == "/users";
    items
  }

  /** The menu's entries have distinct texts (the list's keys) and distinct paths. */
  lemma MenuEntriesDistinct(user: Option<User>)
    ensures var items := MenuItems(user);
            forall i, j :: 0 <= i < j < |items| ==> items[i].text != items[j].text && items[i].path != items[j].path
  {
    var items := MenuItems(user);
    forall i, j | 0 <= i < j < |items|
      ensures items[i].text != items[j].text && items[i].path != items[j].path
    {
      assert |items[i].path| != |items[j].path| || items[i].path[1] != items[j].path[1];
    }
  }

  /** Clicking an entry navigates to its path, pushing a history entry. */
  function ItemAction(item: MenuItem): (n: Navigation)
    ensures n.path == item.path && !n.replace
  {
    Navigation(item.path, false)
  }

  /** `user.first_name || user.username`. */
  function DisplayName(u: User): (name: string)
    ensures TruthyString(u.firstName) ==> name == u.firstName.value
    ensures !TruthyString(u.firstName) ==> name == u.username
  {
    if TruthyString(u.firstName) then u.firstName.value else u.username
  }

  /** The role's name in capitals, as the header shows it. */
  function RoleTitle(r: Role): (t: string)
    ensures |t| == |RoleName(r)|
    ensures forall i :: 0 <= i < |t| ==> t[i] as int == RoleName(r)[i] as int - 32
  {
    match r
    case Admin => "ADMIN"
    case Manager => "MANAGER"
    case Technician => "TECHNICIAN"
    case Requester => "REQUESTER"
  }

  /** The header: `CMMS - ` and the role in capitals, or `Usuario` with nobody logged in. */
  function HeaderTitle(user: Option<User>): (t: string)
    ensures user.Some? ==> t == "CMMS - " + RoleTitle(user.value.role)
    ensures user.None? ==> t == "CMMS - Usuario"
  {
    "CMMS - " + (if user.Some? then RoleTitle(user.value.role) else "Usuario")
  }

  /** The drawer's `mobileOpen` flag. */
  class Drawer {
    var mobileOpen: bool

    constructor ()
      ensures !mobileOpen
    {
      mobileOpen := false;
    }

    /** `handleDrawerToggle`. */
    method Toggle()
      modifies this
      ensures mobileOpen == !old(mobileOpen)
    {
      mobileOpen := !mobileOpen;
    }
  }

  /**
   * `handleLogout`: the logout call completes (its reducer runs whatever the server said), then
   * the browser is sent to `/login`, replacing the current entry. The guard would now redirect there too.
   */
  method HandleLogout(session: Session, serverSucceeded: bool) returns (dispatched: seq<Action>, nav: Navigation)
    modifies session
    ensures dispatched == [Logout]
    ensures session.State() == Apply(old(session.State()), Logout)
    ensures nav == Navigation("/login", true)
    ensures Decide(session.State(), Idle) == RedirectToLogin
  {
    var headers;
    dispatched, headers := LogoutFlow(session, serverSucceeded);
    assert Run(old(session.State()), [Logout]) == Apply(old(session.State()), Logout) by {
      assert [Logout][1..] == [];
    }
    nav := Navigation("/login", true);
  }
}
