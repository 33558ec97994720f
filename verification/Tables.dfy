/**
 * The five RBAC tables of scripts/init.sql, and every SQL statement of the DAO that reads or
 * writes them, each as one atomic function of the whole database.
 *
 * A map keyed by id is a table with its AUTO_INCREMENT primary key, a set of rows is a link
 * table with its composite unique key.  `None` from an insert is the exception a unique key
 * raises.  There are no foreign keys, so nothing cascades.
 */
module Tables {
  import opened Basics

  datatype App = App(name: string, code: string, description: string, status: int)
  datatype Role = Role(appId: nat, key: string)
  datatype Perm = Perm(appId: nat, key: string, name: string)
  datatype UserRole = UserRole(appId: nat, userId: string, roleId: nat)
  datatype RolePerm = RolePerm(roleId: nat, permId: nat)

  datatype DB = DB(
    apps: map<nat, App>, nextApp: nat,
    roles: map<nat, Role>, nextRole: nat,
    perms: map<nat, Perm>, nextPerm: nat,
    userRoles: set<UserRole>,
    rolePerms: set<RolePerm>)

  const ENABLED := 1
  const EMPTY := DB(map[], 1, map[], 1, map[], 1, {}, {})

  // ---- lookups -------------------------------------------------------------------------

  predicate IsApp(db: DB, code: string, id: nat) {
    id in db.apps && db.apps[id].code == code
  }

  /** SELECT id FROM sys_apps WHERE app_code = ? */
  function AppIds(db: DB, code: string): set<nat> {
    set id | id in db.apps && db.apps[id].code == code
  }

  /** SELECT r.id FROM sys_roles r JOIN sys_apps a ... WHERE a.app_code = ? AND r.role_key = ? */
  function RoleIds(db: DB, code: string, key: string): set<nat> {
    set id | id in db.roles && IsApp(db, code, db.roles[id].appId) && db.roles[id].key == key
  }

  /** SELECT p.id FROM sys_permissions p JOIN sys_apps a ... WHERE a.app_code = ? AND p.perm_key = ? */
  function PermIds(db: DB, code: string, key: string): set<nat> {
    set id | id in db.perms && IsApp(db, code, db.perms[id].appId) && db.perms[id].key == key
  }

  /** The rows of sys_roles with the given (app_id, role_key). */
  function RolesOf(db: DB, appId: nat, key: string): set<nat> {
    set id | id in db.roles && db.roles[id].appId == appId && db.roles[id].key == key
  }

  /** The rows of sys_permissions with the given (app_id, perm_key). */
  function PermsOf(db: DB, appId: nat, key: string): set<nat> {
    set id | id in db.perms && db.perms[id].appId == appId && db.perms[id].key == key
  }

  // ---- inserts -------------------------------------------------------------------------

  function InsertApp(db: DB, name: string, code: string, description: string): Option<DB> {
    if AppIds(db, code) != {} then None
    else Some(db.(apps := db.apps[db.nextApp := App(name, code, description, ENABLED)], nextApp := db.nextApp + 1))
  }

  function InsertRole(db: DB, appId: nat, key: string): Option<DB> {
    if RolesOf(db, appId, key) != {} then None
    else Some(db.(roles := db.roles[db.nextRole := Role(appId, key)], nextRole := db.nextRole + 1))
  }

  function InsertPerm(db: DB, appId: nat, key: string, name: string): Option<DB> {
    if PermsOf(db, appId, key) != {} then None
    else Some(db.(perms := db.perms[db.nextPerm := Perm(appId, key, name)], nextPerm := db.nextPerm + 1))
  }

  function InsertUserRole(db: DB, row: UserRole): Option<DB> {
    if row in db.userRoles then None else Some(db.(userRoles := db.userRoles + {row}))
  }

  function InsertRolePerm(db: DB, row: RolePerm): Option<DB> {
    if row in db.rolePerms then None else Some(db.(rolePerms := db.rolePerms + {row}))
  }

  // ---- updates -------------------------------------------------------------------------

  /** The columns an update names; the others keep their value. */
  datatype Patch = Patch(name: Option<string>, description: Option<string>, status: Option<int>)

  function Patched(app: App, patch: Patch): App {
    App(if patch.name.Some? then patch.name.value else app.name, app.code,
        if patch.description.Some? then patch.description.value else app.description,
        if patch.status.Some? then patch.status.value else app.status)
  }

  /** UPDATE sys_apps SET ... WHERE app_code = ? : the code itself is never assigned. */
  function UpdateApps(db: DB, code: string, patch: Patch): DB {
    db.(apps := map id | id in db.apps ::
          if db.apps[id].code == code then Patched(db.apps[id], patch) else db.apps[id])
  }

  /** UPDATE sys_permissions SET perm_name = ? WHERE app_id = ? AND perm_key = ? */
  function RenamePerms(db: DB, appId: nat, key: string, name: Option<string>): DB {
    db.(perms := map id | id in db.perms ::
          if id in PermsOf(db, appId, key) && name.Some? then db.perms[id].(name := name.value) else db.perms[id])
  }

  // ---- deletes -------------------------------------------------------------------------

  /** DELETE FROM sys_apps WHERE app_code = ? */
  function DeleteApps(db: DB, code: string): DB {
    db.(apps := db.apps - AppIds(db, code))
  }

  function DeleteRoles(db: DB, appId: nat, key: string): DB {
    db.(roles := db.roles - RolesOf(db, appId, key))
  }

  function DeletePerms(db: DB, appId: nat, key: string): DB {
    db.(perms := db.perms - PermsOf(db, appId, key))
  }

  /** The rows the DELETE of removeRoleFromUser joins to: the role's own app is not compared. */
  function Assignments(db: DB, code: string, user: string, roleKey: string): set<UserRole> {
    set ur | ur in db.userRoles && IsApp(db, code, ur.appId) && ur.userId == user
             && ur.roleId in db.roles && db.roles[ur.roleId].key == roleKey
  }

  function DeleteAssignments(db: DB, code: string, user: string, roleKey: string): DB {
    db.(userRoles := db.userRoles - Assignments(db, code, user, roleKey))
  }

  /** The rows the DELETE of removePermissionFromRole joins to: the permission's app is not compared. */
  function Bindings(db: DB, code: string, roleKey: string, permKey: string): set<RolePerm> {
    set rp | rp in db.rolePerms && rp.roleId in db.roles && rp.permId in db.perms
             && IsApp(db, code, db.roles[rp.roleId].appId)
             && db.roles[rp.roleId].key == roleKey && db.perms[rp.permId].key == permKey
  }

  function DeleteBindings(db: DB, code: string, roleKey: string, permKey: string): DB {
    db.(rolePerms := db.rolePerms - Bindings(db, code, roleKey, permKey))
  }
}
