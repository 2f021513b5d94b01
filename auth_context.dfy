/** The permission check of the authentication context: a fixed table from a
    profile's role to the capabilities it grants, and `hasPermission`. */
module AuthContext {
  import opened Common

  /** The part of a signed-in user's profile the check reads. */
  datatype Profile = Profile(role: string)

  /** `rolePermissions`. */
  const RolePermissions: map<string, seq<string>> := map[
    "admin" := ["all"],
    "warehouse_manager" := ["inventory", "orders", "layout", "reports", "workers"],
    "warehouse_staff" := ["inventory_update", "order_processing"],
    "finance" := ["reports", "inventory_view"]
  ]

  /** The property names every object literal inherits from `Object.prototype`.
      `rolePermissions` is a plain object, so indexing it with one of these
      finds a function (or, for `__proto__`, the prototype object itself):
      a truthy value that is not a list. */
  const InheritedNames: set<string> := {
    "constructor", "__proto__", "__defineGetter__", "__defineSetter__",
    "__lookupGetter__", "__lookupSetter__", "hasOwnProperty", "isPrototypeOf",
    "propertyIsEnumerable", "toLocaleString", "toString", "valueOf"
  }

  /** None of the four roles of the table is an inherited name. */
  lemma TableRolesAreOwnNames()
    ensures forall role :: role in RolePermissions ==> role !in InheritedNames
  {
  }

  /** What `rolePermissions[role] || []` evaluates to. */
  datatype Lookup = Listed(perms: seq<string>) | NotAList

  /** An outcome of `hasPermission`: a boolean, or the `TypeError` thrown when
      `includes` is called on something that is not a list. */
  datatype Check = Returns(granted: bool) | TypeError

  /** `rolePermissions[role] || []`: the role's row, the inherited member for
      an inherited name, and the empty list for any other role. */
  function UserPermissions(role: string): (l: Lookup)
    ensures role in RolePermissions ==> l == Listed(RolePermissions[role])
    ensures role in InheritedNames ==> l == NotAList
    ensures role !in RolePermissions && role !in InheritedNames ==> l == Listed([])
  {
    if role in RolePermissions then Listed(RolePermissions[role])
    else if role in InheritedNames then NotAList
    else Listed([])
  }

  /** `hasPermission(permission)` for the profile currently loaded (if any). */
  function HasPermission(profile: Option<Profile>, permission: string): (c: Check)
    ensures profile.None? ==> c == Returns(false)
    ensures c == TypeError <==> profile.Some? && profile.value.role in InheritedNames
    ensures profile.Some? && profile.value.role == "admin" ==> c == Returns(true)
  {
    if profile.None? then Returns(false)
    else match UserPermissions(profile.value.role)
      case NotAList => TypeError
      case Listed(perms) => Returns("all" in perms || permission in perms)
  }

  /** The capabilities each role is meant to have, as sets: every capability
      for `admin`, none for a role outside the four. */
  ghost predicate Grants(role: string, permission: string)
  {
    || role == "admin"
    || (role == "warehouse_manager" && permission in {"inventory", "orders", "layout", "reports", "workers"})
    || (role == "warehouse_staff" && permission in {"inventory_update", "order_processing"})
    || (role == "finance" && permission in {"reports", "inventory_view"})
  }

  /** Nobody signed in: no capability at all. */
  lemma NoProfileNoPermission(permission: string)
    ensures HasPermission(None, permission) == Returns(false)
  {
  }

  /** The check grants a signed-in user exactly the capabilities of the role's
      row: every capability for `admin`, the listed ones for the three other
      roles and nothing for a role missing from the table; an inherited name
      makes the check throw. */
  lemma HasPermissionIffGranted(role: string, permission: string)
    ensures role !in InheritedNames ==>
      HasPermission(Some(Profile(role)), permission) == Returns(Grants(role, permission))
    ensures role in InheritedNames ==> HasPermission(Some(Profile(role)), permission) == TypeError
  {
    var l := UserPermissions(role);
    if role == "admin" {
      assert l.perms[0] == "all";
    } else if role == "warehouse_manager" {
      assert l.perms == ["inventory", "orders", "layout", "reports", "workers"];
    } else if role == "warehouse_staff" {
      assert l.perms == ["inventory_update", "order_processing"];
    } else if role == "finance" {
      assert l.perms == ["reports", "inventory_view"];
    } else if role !in InheritedNames {
      assert l.perms == [];
    }
  }

  /** `admin` is granted every capability, whatever its name. */
  lemma AdminHasEveryPermission(permission: string)
    ensures HasPermission(Some(Profile("admin")), permission) == Returns(true)
  {
    HasPermissionIffGranted("admin", permission);
  }

  /** A role the table does not list is granted nothing, unless its name is an
      inherited one, for which the check throws. */
  lemma UnknownRoleHasNoPermission(role: string, permission: string)
    requires role !in RolePermissions
    ensures role !in InheritedNames ==> HasPermission(Some(Profile(role)), permission) == Returns(false)
    ensures role in InheritedNames ==> HasPermission(Some(Profile(role)), permission) == TypeError
  {
  }
}
