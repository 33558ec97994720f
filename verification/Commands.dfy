/**
 * What each administrative operation does to the database when no other call is in progress: the
 * specification the DAO's methods are proved against.
 */
module Commands {
  import opened Basics
  import opened Tables
  import opened History

  datatype Command =
    | CreateApp(code: string, name: string, description: string)
    | UpdateApp(code: string, patch: Patch)
    | DeleteApp(code: string)
    | Grant(code: string, user: string, roleKey: string)
    | Revoke(code: string, user: string, roleKey: string)
    | AddPermToRole(code: string, roleKey: string, permKey: string)
    | RemovePermFromRole(code: string, roleKey: string, permKey: string)
    | CreateRole(code: string, roleKey: string, name: string)
    | CreatePerm(code: string, permKey: string, name: string)
    | DeleteRole(code: string, roleKey: string)
    | DeletePerm(code: string, permKey: string)
    | UpdateRole(code: string, roleKey: string)
    | UpdatePerm(code: string, permKey: string, newName: Option<string>)

  const NOTHING := Patch(None, None, None)

  /** The row of a query that returns at most one. */
  ghost function The(s: set<nat>): (x: nat)
    requires s != {}
    ensures x in s
  {
    var x :| x in s; x
  }

  ghost function GrantRow(db: DB, code: string, user: string, roleKey: string): UserRole
    requires RoleIds(db, code, roleKey) != {}
  {
    UserRole(db.roles[The(RoleIds(db, code, roleKey))].appId, user, The(RoleIds(db, code, roleKey)))
  }

  ghost function LinkRow(db: DB, code: string, roleKey: string, permKey: string): RolePerm
    requires RoleIds(db, code, roleKey) != {} && PermIds(db, code, permKey) != {}
  {
    RolePerm(The(RoleIds(db, code, roleKey)), The(PermIds(db, code, permKey)))
  }

  ghost function Effect(w: World, c: Command): World {
    var db := w.db;
    match c
    case CreateApp(code, name, description) => AddApp(w, name, code, description)
    case UpdateApp(code, patch) => if patch == NOTHING then w else w.(db := UpdateApps(db, code, patch))
    case DeleteApp(code) => w.(db := DeleteApps(db, code))
    case Grant(code, user, roleKey) =>
      if RoleIds(db, code, roleKey) == {} then w else Put(w, InsertUserRole(db, GrantRow(db, code, user, roleKey)))
    case Revoke(code, user, roleKey) => w.(db := DeleteAssignments(db, code, user, roleKey))
    case AddPermToRole(code, roleKey, permKey) =>
      if RoleIds(db, code, roleKey) == {} || PermIds(db, code, permKey) == {} then w
      else Put(w, InsertRolePerm(db, LinkRow(db, code, roleKey, permKey)))
    case RemovePermFromRole(code, roleKey, permKey) => w.(db := DeleteBindings(db, code, roleKey, permKey))
    case CreateRole(code, roleKey, _) =>
      if AppIds(db, code) == {} then w else AddRole(w, The(AppIds(db, code)), roleKey)
    case CreatePerm(code, permKey, name) =>
      if AppIds(db, code) == {} then w else AddPerm(w, The(AppIds(db, code)), permKey, name)
    case DeleteRole(code, roleKey) =>
      if AppIds(db, code) == {} then w else w.(db := DeleteRoles(db, The(AppIds(db, code)), roleKey))
    case DeletePerm(code, permKey) =>
      if AppIds(db, code) == {} then w else w.(db := DeletePerms(db, The(AppIds(db, code)), permKey))
    case UpdateRole(code, roleKey) => w
    case UpdatePerm(code, permKey, name) =>
      if AppIds(db, code) == {} then w else w.(db := RenamePerms(db, The(AppIds(db, code)), permKey, name))
  }

  /**
   * Whether the operation reports success.  `matched` is the connector's way of counting the rows
   * of an UPDATE: rows matched, or only rows whose values changed.
   */
  ghost predicate Accepted(w: World, c: Command, matched: bool) {
    var db := w.db;
    match c
    case CreateApp(code, _, _) => AppIds(db, code) == {}
    case UpdateApp(code, patch) =>
      patch == NOTHING || exists a :: a in AppIds(db, code) && (matched || Patched(db.apps[a], patch) != db.apps[a])
    case DeleteApp(code) => AppIds(db, code) != {}
    case Grant(code, user, roleKey) =>
      RoleIds(db, code, roleKey) != {} && GrantRow(db, code, user, roleKey) !in db.userRoles
    case Revoke(code, user, roleKey) => Assignments(db, code, user, roleKey) != {}
    case AddPermToRole(code, roleKey, permKey) =>
      RoleIds(db, code, roleKey) != {} && PermIds(db, code, permKey) != {}
      && LinkRow(db, code, roleKey, permKey) !in db.rolePerms
    case RemovePermFromRole(code, roleKey, permKey) => Bindings(db, code, roleKey, permKey) != {}
    case CreateRole(code, roleKey, _) =>
      AppIds(db, code) != {} && RolesOf(db, The(AppIds(db, code)), roleKey) == {}
    case CreatePerm(code, permKey, _) =>
      AppIds(db, code) != {} && PermsOf(db, The(AppIds(db, code)), permKey) == {}
    case DeleteRole(code, roleKey) =>
      AppIds(db, code) != {} && RolesOf(db, The(AppIds(db, code)), roleKey) != {}
    case DeletePerm(code, permKey) =>
      AppIds(db, code) != {} && PermsOf(db, The(AppIds(db, code)), permKey) != {}
    case UpdateRole(code, _) => AppIds(db, code) != {}
    case UpdatePerm(code, _, _) => AppIds(db, code) != {}
  }

  lemma GrantKeepsInv(w: World, code: string, user: string, roleKey: string)
    requires Inv(w)
    ensures Inv(Effect(w, Grant(code, user, roleKey)))
  {
    if RoleIds(w.db, code, roleKey) != {} {
      InsertsKeep(w, GrantRow(w.db, code, user, roleKey), RolePerm(0, 0));
    }
  }

  lemma AddPermToRoleKeepsInv(w: World, code: string, roleKey: string, permKey: string)
    requires Inv(w)
    ensures Inv(Effect(w, AddPermToRole(code, roleKey, permKey)))
  {
    if RoleIds(w.db, code, roleKey) != {} && PermIds(w.db, code, permKey) != {} {
      var row := LinkRow(w.db, code, roleKey, permKey);
      LookupsUnique(w, code, roleKey);
      assert w.db.roles[row.roleId].appId in AppIds(w.db, code) && w.db.perms[row.permId].appId in AppIds(w.db, code);
      assert LinkOk(w.born, row);
      InsertsKeep(w, UserRole(0, "", 0), row);
    }
  }

  /** The deletes that name an app, a user or a link by its keys. */
  lemma KeyedDeleteKeepsInv(w: World, c: Command)
    requires Inv(w) && (c.DeleteApp? || c.Revoke? || c.RemovePermFromRole?)
    ensures Inv(Effect(w, c))
  {
    FewerKeeps(w, Effect(w, c).db);
  }

  /** The writes that look the app id up first. */
  lemma AppWriteKeepsInv(w: World, c: Command)
    requires Inv(w) && (c.CreateRole? || c.CreatePerm? || c.DeleteRole? || c.DeletePerm? || c.UpdatePerm?)
    ensures Inv(Effect(w, c))
  {
    if AppIds(w.db, c.code) != {} {
      var appId := The(AppIds(w.db, c.code));
      match c
      case CreateRole(_, roleKey, _) => AddRoleKeeps(w, appId, roleKey);
      case CreatePerm(_, permKey, name) => AddPermKeeps(w, appId, permKey, name);
      case DeleteRole(code, roleKey) => DeletesKeep(w, code, appId, roleKey, "", "");
      case DeletePerm(code, permKey) => DeletesKeep(w, code, appId, permKey, "", "");
      case UpdatePerm(_, permKey, name) => RenamePermsKeeps(w, appId, permKey, name);
    }
  }

  lemma EffectKeepsInv(w: World, c: Command)
    requires Inv(w)
    ensures Inv(Effect(w, c))
  {
    match c
    case CreateApp(code, name, description) => AddAppKeeps(w, name, code, description);
    case UpdateApp(code, patch) => UpdateAppsKeeps(w, code, patch);
    case Grant(code, user, roleKey) => GrantKeepsInv(w, code, user, roleKey);
    case AddPermToRole(code, roleKey, permKey) => AddPermToRoleKeepsInv(w, code, roleKey, permKey);
    case UpdateRole(_, _) =>
    case _ =>
      if c.DeleteApp? || c.Revoke? || c.RemovePermFromRole? {
        KeyedDeleteKeepsInv(w, c);
      } else {
        AppWriteKeepsInv(w, c);
      }
  }

  /** A reported failure means the database is as it was. */
  lemma RefusedChangesNothing(w: World, c: Command, matched: bool)
    requires Inv(w) && !Accepted(w, c, matched)
    ensures Effect(w, c) == w
  {
    var db := w.db;
    match c
    case UpdateApp(code, patch) =>
      forall a | a in db.apps ensures UpdateApps(db, code, patch).apps[a] == db.apps[a] {
        if db.apps[a].code == code { assert a in AppIds(db, code); }
      }
      assert UpdateApps(db, code, patch).apps == db.apps;
    case DeleteApp(code) => assert DeleteApps(db, code).apps == db.apps;
    case Revoke(code, user, roleKey) => assert DeleteAssignments(db, code, user, roleKey).userRoles == db.userRoles;
    case RemovePermFromRole(code, roleKey, permKey) =>
      assert DeleteBindings(db, code, roleKey, permKey).rolePerms == db.rolePerms;
    case DeleteRole(code, roleKey) =>
      if AppIds(db, code) != {} { assert DeleteRoles(db, The(AppIds(db, code)), roleKey).roles == db.roles; }
    case DeletePerm(code, permKey) =>
      if AppIds(db, code) != {} { assert DeletePerms(db, The(AppIds(db, code)), permKey).perms == db.perms; }
    case _ =>
  }
}
