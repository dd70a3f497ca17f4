/**
 * The permission-matrix editor of the roles page: a table of roles, each
 * holding modules with five boolean permissions, kept in component state and
 * mirrored to local storage under the key 'roles'.
 */
module Roles {

  datatype Permission = Read | FullAccess | Update | Add | Delete

  /** The five permissions of one module. */
  datatype Permissions = Permissions(read: bool, fullAccess: bool, update: bool, add: bool, delete: bool)
  {
    function Get(p: Permission): bool {
      match p
      case Read => read
      case FullAccess => fullAccess
      case Update => update
      case Add => add
      case Delete => delete
    }

    /** `{ ...permissions, [p]: !permissions[p] }` */
    function Flip(p: Permission): (r: Permissions)
      ensures r.Get(p) == !Get(p)
      ensures forall q :: q != p ==> r.Get(q) == Get(q)
    {
      match p
      case Read => this.(read := !read)
      case FullAccess => this.(fullAccess := !fullAccess)
      case Update => this.(update := !update)
      case Add => this.(add := !add)
      case Delete => this.(delete := !delete)
    }
  }

  datatype Module = Module(name: string, permissions: Permissions)

  datatype Role = Role(id: int, title: string, department: string, assignedUsers: int, modules: seq<Module>)

  const RolesKey := "roles"

  /** Every role whose id is `roleId` has a module at `moduleIndex`. When this
    * fails the toggle's updater reads `.permissions` of an undefined module
    * and throws. */
  predicate Toggleable(roles: seq<Role>, roleId: int, moduleIndex: int) {
    forall r :: r in roles && r.id == roleId ==> 0 <= moduleIndex < |r.modules|
  }

  /** The updater's callback for one role: a matching role gets a copy of its
    * modules with permission `p` of module `moduleIndex` negated. */
  function ToggleRole(role: Role, roleId: int, moduleIndex: int, p: Permission): Role
    requires role.id == roleId ==> 0 <= moduleIndex < |role.modules|
  {
    if role.id == roleId then
      var m := role.modules[moduleIndex];
      role.(modules := role.modules[moduleIndex := m.(permissions := m.permissions.Flip(p))])
    else role
  }

  /** `prevRoles.map(...)` of `handlePermissionToggle`. */
  function ToggleRoles(roles: seq<Role>, roleId: int, moduleIndex: int, p: Permission): seq<Role>
    requires Toggleable(roles, roleId, moduleIndex)
    decreases |roles|
  {
    if roles == [] then []
    else
      assert roles[0] in roles;
      [ToggleRole(roles[0], roleId, moduleIndex, p)] + ToggleRoles(roles[1..], roleId, moduleIndex, p)
  }

  /** The toggled table, position by position. */
  lemma {:induction false} ToggleRolesAt(roles: seq<Role>, roleId: int, moduleIndex: int, p: Permission, i: int)
    requires Toggleable(roles, roleId, moduleIndex) && 0 <= i < |roles|
    ensures |ToggleRoles(roles, roleId, moduleIndex, p)| == |roles|
    ensures roles[i] in roles
    ensures ToggleRoles(roles, roleId, moduleIndex, p)[i] == ToggleRole(roles[i], roleId, moduleIndex, p)
    decreases |roles|
  {
    if i > 0 {
      ToggleRolesAt(roles[1..], roleId, moduleIndex, p, i - 1);
    } else if |roles| > 1 {
      ToggleRolesAt(roles[1..], roleId, moduleIndex, p, 0);
    }
  }

  /** Toggling flips exactly one permission: permission `p` of module
    * `moduleIndex` in every role whose id is `roleId`. The number and order of
    * roles, each role's other fields, its number of modules, every module name
    * and every other permission are unchanged. */
  lemma ToggleFlipsExactlyOne(roles: seq<Role>, roleId: int, moduleIndex: int, p: Permission)
    requires Toggleable(roles, roleId, moduleIndex)
    ensures |ToggleRoles(roles, roleId, moduleIndex, p)| == |roles|
    ensures forall i :: 0 <= i < |roles| ==>
      var before, after := roles[i], ToggleRoles(roles, roleId, moduleIndex, p)[i];
      && after.id == before.id && after.title == before.title
      && after.department == before.department && after.assignedUsers == before.assignedUsers
      && |after.modules| == |before.modules|
      && forall j :: 0 <= j < |before.modules| ==>
           && after.modules[j].name == before.modules[j].name
           && forall q :: after.modules[j].permissions.Get(q) ==
                (if before.id == roleId && j == moduleIndex && q == p
                 then !before.modules[j].permissions.Get(q)
                 else before.modules[j].permissions.Get(q))
  {
    if roles != [] {
      ToggleRolesAt(roles, roleId, moduleIndex, p, 0);
    }
    forall i | 0 <= i < |roles| ensures ToggleRoles(roles, roleId, moduleIndex, p)[i] == ToggleRole(roles[i], roleId, moduleIndex, p) {
      ToggleRolesAt(roles, roleId, moduleIndex, p, i);
    }
  }

  /** The toggled table can be toggled again at the same place. */
  lemma {:induction false} ToggleKeepsToggleable(roles: seq<Role>, roleId: int, moduleIndex: int, p: Permission)
    requires Toggleable(roles, roleId, moduleIndex)
    ensures Toggleable(ToggleRoles(roles, roleId, moduleIndex, p), roleId, moduleIndex)
  {
    var t := ToggleRoles(roles, roleId, moduleIndex, p);
    if roles != [] {
      ToggleRolesAt(roles, roleId, moduleIndex, p, 0);
    }
    forall r | r in t && r.id == roleId ensures 0 <= moduleIndex < |r.modules| {
      var i :| 0 <= i < |t| && t[i] == r;
      ToggleRolesAt(roles, roleId, moduleIndex, p, i);
    }
  }

  lemma ToggleRoleTwice(role: Role, roleId: int, moduleIndex: int, p: Permission)
    requires role.id == roleId ==> 0 <= moduleIndex < |role.modules|
    ensures var once := ToggleRole(role, roleId, moduleIndex, p);
      once.id == role.id && |once.modules| == |role.modules|
      && ToggleRole(once, roleId, moduleIndex, p) == role
  {
    if role.id == roleId {
      var m := role.modules[moduleIndex];
      var flipped := m.permissions.Flip(p);
      assert flipped.Flip(p) == m.permissions by {
        match p
        case Read =>
        case FullAccess =>
        case Update =>
        case Add =>
        case Delete =>
      }
      var once := role.modules[moduleIndex := m.(permissions := flipped)];
      assert once[moduleIndex := m] == role.modules;
    }
  }

  /** Toggling the same permission twice restores the original table. */
  lemma {:induction false} ToggleTwiceRestores(roles: seq<Role>, roleId: int, moduleIndex: int, p: Permission)
    requires Toggleable(roles, roleId, moduleIndex)
    ensures Toggleable(ToggleRoles(roles, roleId, moduleIndex, p), roleId, moduleIndex)
    ensures ToggleRoles(ToggleRoles(roles, roleId, moduleIndex, p), roleId, moduleIndex, p) == roles
    decreases |roles|
  {
    ToggleKeepsToggleable(roles, roleId, moduleIndex, p);
    if roles != [] {
      assert roles[0] in roles;
      ToggleRoleTwice(roles[0], roleId, moduleIndex, p);
      ToggleTwiceRestores(roles[1..], roleId, moduleIndex, p);
      var once := ToggleRoles(roles, roleId, moduleIndex, p);
      assert once[1..] == ToggleRoles(roles[1..], roleId, moduleIndex, p);
      assert roles == [roles[0]] + roles[1..];
    }
  }

  /** When no role has id `roleId` the table comes back unchanged. */
  lemma {:induction false} ToggleUnknownRoleIsIdentity(roles: seq<Role>, roleId: int, moduleIndex: int, p: Permission)
    requires forall r :: r in roles ==> r.id != roleId
    ensures Toggleable(roles, roleId, moduleIndex)
    ensures ToggleRoles(roles, roleId, moduleIndex, p) == roles
    decreases |roles|
  {
    if roles != [] {
      assert roles[0] in roles;
      ToggleUnknownRoleIsIdentity(roles[1..], roleId, moduleIndex, p);
      assert roles == [roles[0]] + roles[1..];
    }
  }

  /** The roles page: the `localRoles` state, local storage (only the 'roles'
    * entry is written here; other entries are left alone) and the default
    * table imported from the page's types module. */
  class RolesPage {
    const defaults: seq<Role>
    var roles: seq<Role>
    var store: map<string, seq<Role>>

    /** The component's first render: `localRoles` starts empty. */
    constructor (defaults: seq<Role>, store: map<string, seq<Role>>)
      ensures this.defaults == defaults && this.store == store && roles == []
    {
      this.defaults := defaults;
      this.store := store;
      roles := [];
    }

    /** The stored 'roles' entry equals the table on screen. */
    ghost predicate Mirrored()
      reads this
    {
      RolesKey in store && store[RolesKey] == roles
    }

    /** The mount effect: a saved table becomes the state; without one the
      * defaults become the state and are saved. */
    method Load()
      modifies this
      ensures RolesKey in old(store) ==> roles == old(store)[RolesKey] && store == old(store)
      ensures RolesKey !in old(store) ==> roles == defaults && store == old(store)[RolesKey := defaults]
      ensures Mirrored()
    {
      if RolesKey in store {
        roles := store[RolesKey];
      } else {
        roles := defaults;
        store := store[RolesKey := defaults];
      }
    }

    /** `handlePermissionToggle`: applies the toggle and writes the new table to
      * storage, also when no role matched. `ok` is false when the updater
      * would throw; then neither the state nor storage changes. */
    method TogglePermission(roleId: int, moduleIndex: int, p: Permission) returns (ok: bool)
      modifies this
      ensures ok == Toggleable(old(roles), roleId, moduleIndex)
      ensures ok ==> roles == ToggleRoles(old(roles), roleId, moduleIndex, p)
                     && store == old(store)[RolesKey := roles] && Mirrored()
      ensures !ok ==> roles == old(roles) && store == old(store)
    {
      ok := forall r | r in roles :: r.id == roleId ==> 0 <= moduleIndex < |r.modules|;
      if ok {
        var newRoles := ToggleRoles(roles, roleId, moduleIndex, p);
        store := store[RolesKey := newRoles];
        roles := newRoles;
      }
    }

    /** `handleReset`: back to the default table, in state and in storage,
      * whatever was toggled before. */
    method Reset()
      modifies this
      ensures roles == defaults && store == old(store)[RolesKey := defaults] && Mirrored()
    {
      roles := defaults;
      store := store[RolesKey := defaults];
    }
  }
}
