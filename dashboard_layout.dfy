/** The side menu of the staff dashboard and the colour of the role badge. */
module DashboardLayout {
  import opened Common

  datatype MenuItem = MenuItem(text: string, path: string)

  /** `getMenuItems`: `allMenus[user?.role] || []`. */
  function MenuItems(role: Option<string>): seq<MenuItem>
  {
    if role == Some("ADMIN") then
      [MenuItem("Dashboard", "/admin/dashboard"), MenuItem("Users", "/admin/users"),
       MenuItem("Warehouses", "/admin/warehouses"), MenuItem("Products", "/admin/products"),
       MenuItem("Orders", "/admin/orders"), MenuItem("Shipments", "/admin/shipments"),
       MenuItem("Reports", "/admin/reports"), MenuItem("Settings", "/admin/settings")]
    else if role == Some("MANAGER") then
      [MenuItem("Dashboard", "/manager/dashboard"), MenuItem("Warehouses", "/manager/warehouses"),
       MenuItem("Products", "/manager/products"), MenuItem("Orders", "/manager/orders"),
       MenuItem("Shipments", "/manager/shipments"), MenuItem("Reports", "/manager/reports")]
    else if role == Some("WAREHOUSE_STAFF") then
      [MenuItem("Dashboard", "/warehouse/dashboard"), MenuItem("Inventory", "/warehouse/inventory"),
       MenuItem("Receive Goods", "/warehouse/receive"), MenuItem("Dispatch Goods", "/warehouse/dispatch"),
       MenuItem("Stock Report", "/warehouse/report")]
    else if role == Some("DRIVER") then
      [MenuItem("My Deliveries", "/driver/dashboard"), MenuItem("Route Map", "/driver/routes"),
       MenuItem("Delivery History", "/driver/history")]
    else []
  }

  predicate StaffRole(role: string)
  {
    role == "ADMIN" || role == "MANAGER" || role == "WAREHOUSE_STAFF" || role == "DRIVER"
  }

  /** The URL area of each staff role. */
  function AreaPrefix(role: string): string
  {
    if role == "ADMIN" then "/admin/"
    else if role == "MANAGER" then "/manager/"
    else if role == "WAREHOUSE_STAFF" then "/warehouse/"
    else if role == "DRIVER" then "/driver/"
    else "/"
  }

  predicate StartsWith(s: string, prefix: string)
  {
    |prefix| <= |s| && s[..|prefix|] == prefix
  }

  /**
   * ADMIN sees 8 entries, MANAGER 6, WAREHOUSE_STAFF 5, DRIVER 3, anyone
   * else none; every path lies in the role's own area, and no two entries
   * share a text, which serves as the list key.
   */
  lemma MenuShape(role: Option<string>)
    ensures role == Some("ADMIN") ==> |MenuItems(role)| == 8
    ensures role == Some("MANAGER") ==> |MenuItems(role)| == 6
    ensures role == Some("WAREHOUSE_STAFF") ==> |MenuItems(role)| == 5
    ensures role == Some("DRIVER") ==> |MenuItems(role)| == 3
    ensures role.None? || !StaffRole(role.value) ==> MenuItems(role) == []
    ensures forall i :: 0 <= i < |MenuItems(role)| ==> StartsWith(MenuItems(role)[i].path, AreaPrefix(role.value))
    ensures forall i, j :: 0 <= i < j < |MenuItems(role)| ==> MenuItems(role)[i].text != MenuItems(role)[j].text
  {
    if role.Some? && StaffRole(role.value) {
      StaffMenuWellFormed(role.value);
    }
  }

  /** The paths of a staff menu lie in the role's area, and its texts are distinct. */
  predicate WellFormedMenu(m: seq<MenuItem>, prefix: string)
  {
    (forall i :: 0 <= i < |m| ==> StartsWith(m[i].path, prefix))
    && (forall i, j :: 0 <= i < j < |m| ==> m[i].text != m[j].text)
  }

  lemma StaffMenuWellFormed(role: string)
    requires StaffRole(role)
    ensures WellFormedMenu(MenuItems(Some(role)), AreaPrefix(role))
  {
    if role == "ADMIN" {
      AdminMenuWellFormed();
    } else if role == "MANAGER" {
      ManagerMenuWellFormed();
    } else if role == "WAREHOUSE_STAFF" {
      WarehouseMenuWellFormed();
    } else {
      DriverMenuWellFormed();
    }
  }

  lemma AdminMenuWellFormed()
    ensures WellFormedMenu(MenuItems(Some("ADMIN")), "/admin/")
  {
    var m := MenuItems(Some("ADMIN"));
    forall i | 0 <= i < |m|
      ensures StartsWith(m[i].path, "/admin/")
    {
      assert m[i].path[..7] == "/admin/";
    }
  }

  lemma ManagerMenuWellFormed()
    ensures WellFormedMenu(MenuItems(Some("MANAGER")), "/manager/")
  {
    var m := MenuItems(Some("MANAGER"));
    forall i | 0 <= i < |m|
      ensures StartsWith(m[i].path, "/manager/")
    {
      assert m[i].path[..9] == "/manager/";
    }
  }

  lemma WarehouseMenuWellFormed()
    ensures WellFormedMenu(MenuItems(Some("WAREHOUSE_STAFF")), "/warehouse/")
  {
    var m := MenuItems(Some("WAREHOUSE_STAFF"));
    forall i | 0 <= i < |m|
      ensures StartsWith(m[i].path, "/warehouse/")
    {
      assert m[i].path[..11] == "/warehouse/";
    }
  }

  lemma DriverMenuWellFormed()
    ensures WellFormedMenu(MenuItems(Some("DRIVER")), "/driver/")
  {
    var m := MenuItems(Some("DRIVER"));
    forall i | 0 <= i < |m|
      ensures StartsWith(m[i].path, "/driver/")
    {
      assert m[i].path[..8] == "/driver/";
    }
  }

  /** `getRoleColor`: `colors[role] || 'default'`. */
  function RoleColor(role: Option<string>): string
  {
    if role == Some("ADMIN") then "error"
    else if role == Some("MANAGER") then "warning"
    else if role == Some("WAREHOUSE_STAFF") then "info"
    else if role == Some("DRIVER") then "success"
    else if role == Some("CUSTOMER") then "primary"
    else "default"
  }

  /** Each of the five roles has its own colour; any other value falls back to 'default'. */
  lemma RoleColorTotal(role: Option<string>, other: Option<string>)
    ensures RoleColor(role) == "default" <==> role.None? || (!StaffRole(role.value) && role.value != "CUSTOMER")
    ensures RoleColor(role) != "default" && RoleColor(role) == RoleColor(other) ==> role == other
  {
  }
}
