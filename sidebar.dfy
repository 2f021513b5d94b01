/** The navigation sidebar: the fixed menu and the entries a user is shown. */
module Sidebar {
  import opened Common
  import opened AuthContext

  datatype MenuItem = MenuItem(id: string, title: string, permission: string)

  /** `menuItems`, in display order. */
  const MenuItems: seq<MenuItem> := [
    MenuItem("dashboard", "Dashboard", "all"),
    MenuItem("inventory", "Inventory", "inventory"),
    MenuItem("orders", "Orders", "orders"),
    MenuItem("workers", "Workers", "workers"),
    MenuItem("analytics", "Analytics", "reports"),
    MenuItem("settings", "Settings", "all")
  ]

  /** The `filteredMenuItems` test, evaluated left to right: an open entry
      passes without a call to `hasPermission`; for a guarded entry an
      exception from `hasPermission` propagates before the `admin` test is
      reached. `authRole` is the `role` of the signed-in user object, read
      separately from the profile that `hasPermission` uses. */
  function Shown(item: MenuItem, profile: Option<Profile>, authRole: Option<string>): (c: Check)
    ensures item.permission == "all" ==> c == Returns(true)
    ensures item.permission != "all" ==> (c == TypeError <==> HasPermission(profile, item.permission) == TypeError)
    ensures authRole == Some("admin") && c != TypeError ==> c == Returns(true)
    ensures item.permission != "all" && HasPermission(profile, item.permission).Returns? ==>
      c == Returns(HasPermission(profile, item.permission).granted || authRole == Some("admin"))
  {
    if item.permission == "all" then Returns(true)
    else match HasPermission(profile, item.permission)
      case TypeError => TypeError
      case Returns(b) => Returns(b || authRole == Some("admin"))
  }

  /** The test passes for the entry. */
  predicate Visible(item: MenuItem, profile: Option<Profile>, authRole: Option<string>)
  {
    Shown(item, profile, authRole) == Returns(true)
  }

  /** `items.filter(test)` with a test that may throw: an exception from the
      test of any entry ends the filter; otherwise the entries that pass, in
      their order. */
  function FilterEntries(items: seq<MenuItem>, profile: Option<Profile>, authRole: Option<string>)
    : (r: Option<seq<MenuItem>>)
    ensures r.None? <==> exists k :: 0 <= k < |items| && Shown(items[k], profile, authRole) == TypeError
    ensures r.Some? ==> IsSubsequence(r.value, items)
    ensures r.Some? ==>
      forall i :: 0 <= i < |r.value| ==> r.value[i] in items && Visible(r.value[i], profile, authRole)
    ensures r.Some? ==>
      forall i :: 0 <= i < |items| && Visible(items[i], profile, authRole) ==> items[i] in r.value
  {
    if exists k :: 0 <= k < |items| && Shown(items[k], profile, authRole) == TypeError then
      None
    else
      var p := (item: MenuItem) => Visible(item, profile, authRole);
      FilterIsSubsequence(p, items);
      Some(Filter(p, items))
  }

  /** `filteredMenuItems`: the menu entries the user may see, in menu order,
      or `None` when the filter throws, which happens exactly when the
      profile's role is an inherited name. */
  function FilteredMenuItems(profile: Option<Profile>, authRole: Option<string>): (r: Option<seq<MenuItem>>)
    ensures r.None? <==> profile.Some? && profile.value.role in InheritedNames
  {
    MenuThrowsIff(profile, authRole);
    FilterEntries(MenuItems, profile, authRole)
  }

  /** Some entry's test throws exactly when the profile's role is an
      inherited name: the guarded entries all consult `hasPermission`. */
  lemma MenuThrowsIff(profile: Option<Profile>, authRole: Option<string>)
    ensures (exists k :: 0 <= k < |MenuItems| && Shown(MenuItems[k], profile, authRole) == TypeError) <==>
      profile.Some? && profile.value.role in InheritedNames
  {
    if profile.Some? && profile.value.role in InheritedNames {
      assert MenuItems[1].permission == "inventory";
      assert Shown(MenuItems[1], profile, authRole) == TypeError;
    }
  }

  /** The ids of some entries, in the same order. */
  function Ids(items: seq<MenuItem>): (ids: seq<string>)
    ensures |ids| == |items|
    ensures forall i :: 0 <= i < |items| ==> ids[i] == items[i].id
  {
    seq(|items|, i requires 0 <= i < |items| => items[i].id)
  }

  /** The dashboard and settings entries need no permission: whenever the
      menu is built they are in it. */
  lemma OpenEntriesAlwaysShown(profile: Option<Profile>, authRole: Option<string>)
    ensures FilteredMenuItems(profile, authRole).Some? ==>
      MenuItems[0] in FilteredMenuItems(profile, authRole).value
      && MenuItems[5] in FilteredMenuItems(profile, authRole).value
  {
  }

  /** A profile whose role is an inherited name makes the whole filter throw,
      even for an `admin` user: the first guarded entry calls `hasPermission`. */
  lemma InheritedRoleMenuThrows(role: string, authRole: Option<string>)
    requires role in InheritedNames
    ensures FilteredMenuItems(Some(Profile(role)), authRole) == None
  {
  }

  /** A filter over six entries that passes the first and the last two. */
  lemma FilterSixKeepsFirstAndLastTwo<T>(p: T -> bool, s: seq<T>)
    requires |s| == 6
    requires p(s[0]) && !p(s[1]) && !p(s[2]) && !p(s[3]) && p(s[4]) && p(s[5])
    ensures Filter(p, s) == [s[0], s[4], s[5]]
  {
    FilterSix(p, s);
  }

  /** A filter over six entries that passes only the first and the last. */
  lemma FilterSixKeepsEnds<T>(p: T -> bool, s: seq<T>)
    requires |s| == 6
    requires p(s[0]) && !p(s[1]) && !p(s[2]) && !p(s[3]) && !p(s[4]) && p(s[5])
    ensures Filter(p, s) == [s[0], s[5]]
  {
    FilterSix(p, s);
  }

  /** Which entries a profile role sees when the signed-in user is not an
      `admin` user: the open entries and those its permissions grant. */
  lemma RoleSeesEntry(role: string, authRole: Option<string>, k: nat)
    requires authRole != Some("admin") && k < |MenuItems|
    ensures Visible(MenuItems[k], Some(Profile(role)), authRole) <==>
      MenuItems[k].permission == "all" || Grants(role, MenuItems[k].permission)
  {
    HasPermissionIffGranted(role, MenuItems[k].permission);
  }

  /** `finance` sees the dashboard, analytics and settings entries. */
  lemma FinanceMenu(authRole: Option<string>)
    requires authRole != Some("admin")
    ensures FilteredMenuItems(Some(Profile("finance")), authRole) == Some([MenuItems[0], MenuItems[4], MenuItems[5]])
  {
    var m := MenuItems;
    var p := (item: MenuItem) => Visible(item, Some(Profile("finance")), authRole);
    TableRolesAreOwnNames();
    RoleSeesEntry("finance", authRole, 1);
    RoleSeesEntry("finance", authRole, 2);
    RoleSeesEntry("finance", authRole, 3);
    RoleSeesEntry("finance", authRole, 4);
    assert p(m[0]) && !p(m[1]) && !p(m[2]) && !p(m[3]) && p(m[4]) && p(m[5]);
    FilterSixKeepsFirstAndLastTwo(p, m);
  }

  /** A role whose permissions grant none of the four guarded entries, and
      whose name is not an inherited one, sees only the dashboard and settings
      entries. */
  lemma OpenEntriesOnly(role: string, authRole: Option<string>)
    requires authRole != Some("admin") && role !in InheritedNames
    requires forall k :: 1 <= k <= 4 ==> !Grants(role, MenuItems[k].permission)
    ensures FilteredMenuItems(Some(Profile(role)), authRole) == Some([MenuItems[0], MenuItems[5]])
  {
    var m := MenuItems;
    var p := (item: MenuItem) => Visible(item, Some(Profile(role)), authRole);
    RoleSeesEntry(role, authRole, 1);
    RoleSeesEntry(role, authRole, 2);
    RoleSeesEntry(role, authRole, 3);
    RoleSeesEntry(role, authRole, 4);
    assert p(m[0]) && !p(m[1]) && !p(m[2]) && !p(m[3]) && !p(m[4]) && p(m[5]);
    FilterSixKeepsEnds(p, m);
  }

  /** With no profile loaded and a user who is not an `admin` user, only the
      dashboard and settings entries are shown. */
  lemma NoProfileMenu(authRole: Option<string>)
    requires authRole != Some("admin")
    ensures FilteredMenuItems(None, authRole) == Some([MenuItems[0], MenuItems[5]])
  {
    var m := MenuItems;
    var p := (item: MenuItem) => Visible(item, None, authRole);
    assert p(m[0]) && !p(m[1]) && !p(m[2]) && !p(m[3]) && !p(m[4]) && p(m[5]);
    FilterSixKeepsEnds(p, m);
  }

  /** The ids of three entries. */
  lemma IdsOfThree(a: MenuItem, b: MenuItem, c: MenuItem)
    ensures Ids([a, b, c]) == [a.id, b.id, c.id]
  {
  }

  /** The ids of two entries. */
  lemma IdsOfTwo(a: MenuItem, b: MenuItem)
    ensures Ids([a, b]) == [a.id, b.id]
  {
  }

  /** The ids of the entries `finance` sees. */
  lemma FinanceMenuIds(authRole: Option<string>)
    requires authRole != Some("admin")
    ensures FilteredMenuItems(Some(Profile("finance")), authRole).Some?
    ensures Ids(FilteredMenuItems(Some(Profile("finance")), authRole).value) == ["dashboard", "analytics", "settings"]
  {
    FinanceMenu(authRole);
    IdsOfThree(MenuItems[0], MenuItems[4], MenuItems[5]);
  }

  /** `warehouse_staff` sees only the dashboard and settings. */
  lemma StaffMenu(authRole: Option<string>)
    requires authRole != Some("admin")
    ensures FilteredMenuItems(Some(Profile("warehouse_staff")), authRole) == Some([MenuItems[0], MenuItems[5]])
    ensures Ids(FilteredMenuItems(Some(Profile("warehouse_staff")), authRole).value) == ["dashboard", "settings"]
  {
    TableRolesAreOwnNames();
    OpenEntriesOnly("warehouse_staff", authRole);
    IdsOfTwo(MenuItems[0], MenuItems[5]);
  }

  /** A role outside the table sees only the dashboard and settings, unless its
      name is an inherited one, which makes the filter throw. */
  lemma UnknownRoleMenu(role: string, authRole: Option<string>)
    requires authRole != Some("admin") && role !in RolePermissions
    ensures role !in InheritedNames ==>
      FilteredMenuItems(Some(Profile(role)), authRole) == Some([MenuItems[0], MenuItems[5]])
    ensures role in InheritedNames ==> FilteredMenuItems(Some(Profile(role)), authRole) == None
  {
    if role !in InheritedNames {
      OpenEntriesOnly(role, authRole);
    }
  }

  /** `warehouse_manager` and `admin` profiles see all six entries. */
  lemma ManagerAndAdminMenu(role: string, authRole: Option<string>)
    requires role == "warehouse_manager" || role == "admin"
    ensures FilteredMenuItems(Some(Profile(role)), authRole) == Some(MenuItems)
  {
    var p := (item: MenuItem) => Visible(item, Some(Profile(role)), authRole);
    TableRolesAreOwnNames();
    forall k | 0 <= k < |MenuItems|
      ensures p(MenuItems[k])
    {
      HasPermissionIffGranted(role, MenuItems[k].permission);
    }
    FilterKeepsAll(p, MenuItems);
  }

  /** A signed-in `admin` user sees the whole menu whatever the profile says,
      as long as the profile's role does not make the filter throw. */
  lemma AdminUserSeesWholeMenu(profile: Option<Profile>)
    ensures !(profile.Some? && profile.value.role in InheritedNames) ==>
      FilteredMenuItems(profile, Some("admin")) == Some(MenuItems)
    ensures profile.Some? && profile.value.role in InheritedNames ==>
      FilteredMenuItems(profile, Some("admin")) == None
  {
    if !(profile.Some? && profile.value.role in InheritedNames) {
      var p := (item: MenuItem) => Visible(item, profile, Some("admin"));
      FilterKeepsAll(p, MenuItems);
    }
  }
}
