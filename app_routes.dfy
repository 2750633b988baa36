/**
 * Client-side routing: the `PrivateRoute` gate, the default route of each
 * role, and the route table that decides what a visit to a path shows.
 * The signed-in user is its role string (None when no user is stored);
 * a user object without a role behaves as an unknown role.
 */
module AppRoutes {
  import opened Common
  import opened DashboardLayout

  /** What `PrivateRoute` renders. */
  datatype Outcome = ToLogin | Denied | Children

  /** `PrivateRoute`: no token sends to /login; a role list, when given, must include the user's role. */
  function PrivateRoute(token: bool, role: Option<string>, allowedRoles: seq<string>): Outcome
  {
    if !token then ToLogin
    else if |allowedRoles| > 0 && !(role.Some? && role.value in allowedRoles) then Denied
    else Children
  }

  /**
   * Without a token the gate always redirects, whatever the roles; with one,
   * an empty role list admits everyone and a non-empty one admits exactly
   * the listed roles.
   */
  lemma GateRules(token: bool, role: Option<string>, allowedRoles: seq<string>)
    ensures !token ==> PrivateRoute(token, role, allowedRoles) == ToLogin
    ensures token && allowedRoles == [] ==> PrivateRoute(token, role, allowedRoles) == Children
    ensures token && allowedRoles != [] ==>
      (PrivateRoute(token, role, allowedRoles) == Children <==> role.Some? && role.value in allowedRoles)
    ensures token && allowedRoles != [] ==>
      (PrivateRoute(token, role, allowedRoles) == Denied <==> !(role.Some? && role.value in allowedRoles))
  {
  }

  /** `getDefaultRoute`. */
  function DefaultRoute(role: Option<string>): string
  {
    if role.None? then "/login"
    else if role.value == "ADMIN" then "/admin/dashboard"
    else if role.value == "MANAGER" then "/manager/dashboard"
    else if role.value == "WAREHOUSE_STAFF" then "/warehouse/dashboard"
    else if role.value == "DRIVER" then "/driver/dashboard"
    else "/"
  }

  /** Who may open a route: anyone, or the `PrivateRoute` gate with its role list. */
  datatype Access = Public | Private(allowedRoles: seq<string>)

  /** A route; an area's index route forwards to its dashboard. */
  datatype Route = Route(path: string, access: Access, forwardTo: Option<string>)

  function Area(path: string, role: string): Route
  {
    Route(path, Private([role]), None)
  }

  /** The route below `<Routes>` a path matches, nested paths written out in full; None falls to `*`. */
  function RouteFor(path: string): (r: Option<Route>)
    ensures r.Some? ==> r.value.path == path
  {
    if path == "/" || path == "/shop" || path == "/track" then Some(Route(path, Public, None))
    else if path == "/my-orders" then Some(Route(path, Private(["CUSTOMER", "DRIVER"]), None))
    else if path == "/cart" then Some(Route(path, Private(["CUSTOMER"]), None))
    else if path == "/profile" then Some(Route(path, Private([]), None))
    else if path == "/admin" then Some(Route(path, Private(["ADMIN"]), Some("/admin/dashboard")))
    else if path in {"/admin/dashboard", "/admin/users", "/admin/warehouses", "/admin/products",
                     "/admin/orders", "/admin/shipments", "/admin/reports", "/admin/settings"} then
      Some(Area(path, "ADMIN"))
    else if path == "/manager" then Some(Route(path, Private(["MANAGER"]), Some("/manager/dashboard")))
    else if path in {"/manager/dashboard", "/manager/warehouses", "/manager/products",
                     "/manager/orders", "/manager/shipments", "/manager/reports"} then
      Some(Area(path, "MANAGER"))
    else if path == "/warehouse" then Some(Route(path, Private(["WAREHOUSE_STAFF"]), Some("/warehouse/dashboard")))
    else if path in {"/warehouse/dashboard", "/warehouse/inventory", "/warehouse/receive",
                     "/warehouse/dispatch", "/warehouse/report"} then
      Some(Area(path, "WAREHOUSE_STAFF"))
    else if path == "/driver" then Some(Route(path, Private(["DRIVER"]), Some("/driver/dashboard")))
    else if path in {"/driver/dashboard", "/driver/routes", "/driver/history"} then
      Some(Area(path, "DRIVER"))
    else None
  }

  /** What a visit shows: a page, a redirect, or the access-denied panel. */
  datatype View = Show(path: string) | NavigateTo(target: string) | AccessDenied

  /** A visit to `path`: the auth pages, the table, and the `*` fallback to the default route. */
  function Visit(token: bool, role: Option<string>, path: string): View
  {
    if path == "/login" || path == "/register" then
      if token then NavigateTo(DefaultRoute(role)) else Show(path)
    else match RouteFor(path)
      case None => NavigateTo(DefaultRoute(role))
      case Some(route) =>
        match route.access
        case Public => Show(path)
        case Private(roles) =>
          match PrivateRoute(token, role, roles)
          case ToLogin => NavigateTo("/login")
          case Denied => AccessDenied
          case Children => if route.forwardTo.Some? then NavigateTo(route.forwardTo.value) else Show(path)
  }

  /** /login and /register send a signed-in visitor to the default route, and show the form otherwise. */
  lemma AuthPagesRedirect(token: bool, role: Option<string>)
    ensures token ==> Visit(token, role, "/login") == NavigateTo(DefaultRoute(role))
    ensures token ==> Visit(token, role, "/register") == NavigateTo(DefaultRoute(role))
    ensures !token ==> Visit(token, role, "/login") == Show("/login")
  {
  }

  /** A token without a stored user sends /login to /login again. */
  lemma TokenWithoutUserLoops()
    ensures Visit(true, None, "/login") == NavigateTo("/login")
  {
  }

  /** An area page opens for the area's role and shows the access-denied panel to anyone else signed in. */
  lemma AreaPageGate(path: string, role: string, other: string)
    requires RouteFor(path) == Some(Area(path, role)) && other != role
    ensures Visit(true, Some(role), path) == Show(path)
    ensures Visit(true, Some(other), path) == AccessDenied
    ensures Visit(false, Some(role), path) == NavigateTo("/login")
  {
    assert path != "/login" && path != "/register" by {
      assert RouteFor("/login").None? && RouteFor("/register").None?;
    }
  }

  /** Every menu entry of a staff role is an area page of that role. */
  lemma MenuEntriesAreAreaPages(role: string)
    requires StaffRole(role)
    ensures forall i :: 0 <= i < |MenuItems(Some(role))| ==>
      RouteFor(MenuItems(Some(role))[i].path) == Some(Area(MenuItems(Some(role))[i].path, role))
  {
    if role == "ADMIN" {
      AdminEntriesAreAreaPages();
    } else if role == "MANAGER" {
      ManagerEntriesAreAreaPages();
    } else if role == "WAREHOUSE_STAFF" {
      WarehouseEntriesAreAreaPages();
    } else {
      DriverEntriesAreAreaPages();
    }
  }

  lemma AdminEntriesAreAreaPages()
    ensures forall i :: 0 <= i < |MenuItems(Some("ADMIN"))| ==>
      RouteFor(MenuItems(Some("ADMIN"))[i].path) == Some(Area(MenuItems(Some("ADMIN"))[i].path, "ADMIN"))
  {
    var m := MenuItems(Some("ADMIN"));
    forall i | 0 <= i < |m|
      ensures RouteFor(m[i].path) == Some(Area(m[i].path, "ADMIN"))
    {
      assert m[i].path in {"/admin/dashboard", "/admin/users", "/admin/warehouses", "/admin/products",
                           "/admin/orders", "/admin/shipments", "/admin/reports", "/admin/settings"};
    }
  }

  lemma ManagerEntriesAreAreaPages()
    ensures forall i :: 0 <= i < |MenuItems(Some("MANAGER"))| ==>
      RouteFor(MenuItems(Some("MANAGER"))[i].path) == Some(Area(MenuItems(Some("MANAGER"))[i].path, "MANAGER"))
  {
    var m := MenuItems(Some("MANAGER"));
    forall i | 0 <= i < |m|
      ensures RouteFor(m[i].path) == Some(Area(m[i].path, "MANAGER"))
    {
      assert m[i].path in {"/manager/dashboard", "/manager/warehouses", "/manager/products",
                           "/manager/orders", "/manager/shipments", "/manager/reports"};
    }
  }

  lemma WarehouseEntriesAreAreaPages()
    ensures forall i :: 0 <= i < |MenuItems(Some("WAREHOUSE_STAFF"))| ==>
      RouteFor(MenuItems(Some("WAREHOUSE_STAFF"))[i].path) == Some(Area(MenuItems(Some("WAREHOUSE_STAFF"))[i].path, "WAREHOUSE_STAFF"))
  {
    var m := MenuItems(Some("WAREHOUSE_STAFF"));
    forall i | 0 <= i < |m|
      ensures RouteFor(m[i].path) == Some(Area(m[i].path, "WAREHOUSE_STAFF"))
    {
      assert m[i].path in {"/warehouse/dashboard", "/warehouse/inventory", "/warehouse/receive",
                           "/warehouse/dispatch", "/warehouse/report"};
    }
  }

  lemma DriverEntriesAreAreaPages()
    ensures forall i :: 0 <= i < |MenuItems(Some("DRIVER"))| ==>
      RouteFor(MenuItems(Some("DRIVER"))[i].path) == Some(Area(MenuItems(Some("DRIVER"))[i].path, "DRIVER"))
  {
    var m := MenuItems(Some("DRIVER"));
    forall i | 0 <= i < |m|
      ensures RouteFor(m[i].path) == Some(Area(m[i].path, "DRIVER"))
    {
      assert m[i].path in {"/driver/dashboard", "/driver/routes", "/driver/history"};
    }
  }

  /**
   * The menu and the routes agree: every entry of a staff role's menu opens
   * for that role and is denied to every other signed-in role, and the
   * role's default route is its first menu entry.
   */
  lemma MenuPathsAdmitted(role: string, other: string, i: int)
    requires StaffRole(role) && other != role && 0 <= i < |MenuItems(Some(role))|
    ensures Visit(true, Some(role), MenuItems(Some(role))[i].path) == Show(MenuItems(Some(role))[i].path)
    ensures Visit(true, Some(other), MenuItems(Some(role))[i].path) == AccessDenied
    ensures DefaultRoute(Some(role)) == MenuItems(Some(role))[0].path
  {
    MenuEntriesAreAreaPages(role);
    AreaPageGate(MenuItems(Some(role))[i].path, role, other);
  }
}
