/**
 * PermissionDAO as the services use it: one object holding the database its connections reach.
 * Connections themselves are in module Pool; here a call is told which of its steps fail.
 */
module Dao {
  import opened Basics
  import opened Tables
  import opened History
  import opened Decisions
  import opened Commands
  import opened Listing
  import opened Text
  import opened Audit
  import opened Binding
  import Pool

  /**
   * How one call fares: whether its guard got a connection, whether a nested getAppId works, how
   * many of its own statements run before one throws, and how many result rows are fetched before
   * fetching throws.
   */
  datatype Env = Env(connected: bool, nested: bool, statements: nat, rows: nat)

  predicate Completes(env: Env, nested: bool, statements: nat) {
    env.connected && (nested ==> env.nested) && statements <= env.statements
  }

  /** The nested lookup and the statements a command needs. */
  predicate Undisturbed(env: Env, c: Command) {
    match c
    case CreateRole(_, _, _) => Completes(env, true, 1)
    case CreatePerm(_, _, _) => Completes(env, true, 1)
    case DeleteRole(_, _) => Completes(env, true, 1)
    case DeletePerm(_, _) => Completes(env, true, 1)
    case UpdateRole(_, _) => Completes(env, true, 1)
    case UpdatePerm(_, _, _) => Completes(env, true, 1)
    case Grant(_, _, _) => Completes(env, false, 2)
    case AddPermToRole(_, _, _) => Completes(env, false, 3)
    case UpdateApp(_, patch) => Completes(env, false, if patch == NOTHING then 0 else 1)
    case _ => Completes(env, false, 1)
  }

  /** An operation takes its whole effect and reports it, or fails and leaves no trace. */
  ghost predicate Ran(before: World, after: World, c: Command, ok: bool, env: Env, matched: bool) {
    if Undisturbed(env, c) then after == Effect(before, c) && ok == Accepted(before, c, matched)
    else after == before && !ok
  }

  function PermPair(db: DB, c: Chain): (string, string)
    requires c.1.permId in db.perms
  {
    (db.perms[c.1.permId].key, db.perms[c.1.permId].name)
  }

  /** The pairs are those of the first rows, one each, in order. */
  ghost predicate PairsOf(db: DB, rows: seq<Chain>, perms: seq<(string, string)>) {
    |perms| <= |rows| &&
    forall i :: 0 <= i < |perms| ==> rows[i].1.permId in db.perms && perms[i] == PermPair(db, rows[i])
  }

  class PermissionDAO {
    var db: DB
    ghost var born: Births
    var auditLogs: seq<AuditRow>
    const consoleUsers: map<string, ConsoleUser>
    const matched: bool

    ghost function World(): World
      reads this
    {
      History.World(db, born)
    }

    ghost predicate Valid()
      reads this
    {
      Inv(World())
    }

    constructor (consoleUsers: map<string, ConsoleUser>, matched: bool)
      ensures Valid() && World() == GENESIS && auditLogs == []
      ensures this.consoleUsers == consoleUsers && this.matched == matched
    {
      db := EMPTY;
      born := GENESIS.born;
      auditLogs := [];
      this.consoleUsers := consoleUsers;
      this.matched := matched;
    }

    // ---- decisions ---------------------------------------------------------------------------

    method CheckPermission(code: string, user: string, key: string, env: Env) returns (ok: bool)
      ensures ok == (Completes(env, false, 1) && Allowed(db, code, user, key))
    {
      if !env.connected || env.statements < 1 { return false; }
      var cnt := |AllowRows(db, code, user, key)|;
      ok := cnt > 0;
    }

    method BatchCheckPermissions(code: string, requests: seq<(string, string)>, envs: seq<Env>)
      returns (results: seq<bool>)
      requires |envs| == |requests|
      ensures |results| == |requests|
      ensures forall i :: 0 <= i < |results| ==>
        results[i] == (Completes(envs[i], false, 1) && Allowed(db, code, requests[i].0, requests[i].1))
    {
      results := [];
      for i := 0 to |requests|
        invariant |results| == i
        invariant forall j :: 0 <= j < i ==>
          results[j] == (Completes(envs[j], false, 1) && Allowed(db, code, requests[j].0, requests[j].1))
      {
        var r := CheckPermission(code, requests[i].0, requests[i].1, envs[i]);
        results := results + [r];
      }
    }

    /** One pair per joined row, in the server's order; a failure keeps the rows fetched so far. */
    method GetUserPermissions(code: string, user: string, env: Env)
      returns (perms: seq<(string, string)>)
      ensures exists rows :: Enumerates(rows, Chains(db, code, user)) && PairsOf(db, rows, perms)
      ensures Completes(env, false, 1) && |Chains(db, code, user)| <= env.rows ==> |perms| == |Chains(db, code, user)|
    {
      perms := [];
      var res := Fetch(Chains(db, code, user));
      DistinctLength(res);
      assert forall x :: x in res ==> x in ToSet(res);
      if !env.connected || env.statements < 1 { return; }
      var i := 0;
      while i < |res| && i < env.rows
        invariant i == |perms| <= |res|
        invariant forall j :: 0 <= j < i ==> res[j] in Chains(db, code, user) && perms[j] == PermPair(db, res[j])
      {
        assert res[i] in ToSet(res);
        perms := perms + [PermPair(db, res[i])];
        i := i + 1;
      }
    }

    method GetUserRoles(code: string, user: string, env: Env) returns (roles: seq<string>)
      ensures ToSet(roles) <= UserRoleKeys(db, code, user)
      ensures Completes(env, false, 1) && |UserRoleRows(db, code, user)| <= env.rows ==>
        ToSet(roles) == UserRoleKeys(db, code, user)
      ensures Valid() ==> Distinct(roles)
    {
      roles := [];
      if !env.connected || env.statements < 1 { return; }
      var res := Fetch(UserRoleRows(db, code, user));
      DistinctLength(res);
      var i := 0;
      while i < |res| && i < env.rows
        invariant i == |roles| <= |res| && (i <= env.rows || i == 0)
        invariant forall j :: 0 <= j < i ==>
          res[j] in UserRoleRows(db, code, user) && roles[j] == db.roles[res[j].roleId].key
      {
        assert res[i] in ToSet(res);
        roles := roles + [db.roles[res[i].roleId].key];
        i := i + 1;
      }
      assert forall x :: x in UserRoleRows(db, code, user) ==> x in ToSet(res);
      forall i, j | Valid() && 0 <= i < j < |roles| ensures roles[i] != roles[j] {
        if roles[i] == roles[j] { UserRolesDiffer(World(), code, user, res[i], res[j]); }
      }
    }

    method GetRolesWithPermission(code: string, permKey: string, env: Env) returns (roles: seq<string>)
      requires Valid()
      ensures AppIds(db, code) == {} ==> roles == []
      ensures AppIds(db, code) != {} ==> ToSet(roles) <= GrantingRoleKeys(db, The(AppIds(db, code)), permKey)
      ensures AppIds(db, code) != {} && Completes(env, true, 1) ==>
        |GrantingRows(db, The(AppIds(db, code)), permKey)| <= env.rows ==>
          ToSet(roles) == GrantingRoleKeys(db, The(AppIds(db, code)), permKey)
      ensures Distinct(roles)
    {
      if !env.connected { return []; }
      var appId := GetAppId(code, env.nested);
      if appId == -1 || env.statements < 1 { return []; }
      roles := ReadGrantingRoles(appId, permKey, env.rows);
    }

    method ReadGrantingRoles(appId: nat, permKey: string, limit: nat) returns (roles: seq<string>)
      ensures ToSet(roles) <= GrantingRoleKeys(db, appId, permKey)
      ensures |GrantingRows(db, appId, permKey)| <= limit ==> ToSet(roles) == GrantingRoleKeys(db, appId, permKey)
      ensures Valid() && appId in db.apps ==> Distinct(roles)
    {
      roles := [];
      var res := Fetch(GrantingRows(db, appId, permKey));
      DistinctLength(res);
      var i := 0;
      while i < |res| && i < limit
        invariant i == |roles| <= |res| && (i <= limit || i == 0)
        invariant forall j :: 0 <= j < i ==>
          res[j] in GrantingRows(db, appId, permKey) && roles[j] == db.roles[res[j].roleId].key
      {
        assert res[i] in ToSet(res);
        roles := roles + [db.roles[res[i].roleId].key];
        i := i + 1;
      }
      assert forall x :: x in GrantingRows(db, appId, permKey) ==> x in ToSet(res);
      forall i, j | Valid() && appId in db.apps && 0 <= i < j < |roles| ensures roles[i] != roles[j] {
        if roles[i] == roles[j] { GrantingRolesDiffer(World(), appId, permKey, res[i], res[j]); }
      }
    }

    // ---- lookups ------------------------------------------------------------------------------

    method GetAppId(code: string, works: bool) returns (id: int)
      requires Valid()
      ensures id == if works && AppIds(db, code) != {} then The(AppIds(db, code)) as int else -1
    {
      if !works { return -1; }
      var res: seq<nat> := Fetch(AppIds(db, code));
      LookupsUnique(World(), code, "");
      id := First(res, AppIds(db, code));
    }

    /** `if (res->next())` on a query that returns at most one row. */
    method First(res: seq<nat>, ghost ids: set<nat>) returns (id: int)
      requires Enumerates(res, ids) && forall x, y :: x in ids && y in ids ==> x == y
      ensures id == if ids != {} then The(ids) as int else -1
    {
      if |res| > 0 {
        assert res[0] in ToSet(res);
        id := res[0];
      } else {
        id := -1;
      }
    }

    method AppExists(code: string, env: Env) returns (found: bool)
      requires Valid()
      ensures found == (env.connected && AppIds(db, code) != {})
    {
      var id := GetAppId(code, env.connected);
      found := id != -1;
    }

    method PermissionExists(code: string, permKey: string, env: Env) returns (found: bool)
      requires Valid()
      ensures found == (Completes(env, true, 1) && PermIds(db, code, permKey) != {})
    {
      if !env.connected { return false; }
      var appId := GetAppId(code, env.nested);
      if appId == -1 || env.statements < 1 {
        assert forall p :: p in PermIds(db, code, permKey) ==> db.perms[p].appId in AppIds(db, code);
        return false;
      }
      LookupsUnique(World(), code, permKey);
      assert forall p :: p in PermIds(db, code, permKey) ==> db.perms[p].appId in AppIds(db, code);
      assert PermsOf(db, appId, permKey) == PermIds(db, code, permKey);
      var res: seq<nat> := Fetch(PermsOf(db, appId, permKey));
      found := |res| > 0;
      assert found ==> res[0] in ToSet(res);
    }

    method GetRolePermissions(code: string, roleKey: string, env: Env) returns (keys: seq<string>)
      requires Valid()
      ensures AppIds(db, code) == {} ==> keys == []
      ensures AppIds(db, code) != {} ==> ToSet(keys) <= RolePermKeys(db, The(AppIds(db, code)), roleKey)
      ensures AppIds(db, code) != {} && Completes(env, true, 1) ==>
        |RolePermRows(db, The(AppIds(db, code)), roleKey)| <= env.rows ==>
          ToSet(keys) == RolePermKeys(db, The(AppIds(db, code)), roleKey)
      ensures Distinct(keys)
    {
      if !env.connected { return []; }
      var appId := GetAppId(code, env.nested);
      if appId == -1 || env.statements < 1 { return []; }
      keys := ReadRolePerms(appId, roleKey, env.rows);
    }

    method ReadRolePerms(appId: nat, roleKey: string, limit: nat) returns (keys: seq<string>)
      ensures ToSet(keys) <= RolePermKeys(db, appId, roleKey)
      ensures |RolePermRows(db, appId, roleKey)| <= limit ==> ToSet(keys) == RolePermKeys(db, appId, roleKey)
      ensures Valid() && appId in db.apps ==> Distinct(keys)
    {
      keys := [];
      var res := Fetch(RolePermRows(db, appId, roleKey));
      DistinctLength(res);
      var i := 0;
      while i < |res| && i < limit
        invariant i == |keys| <= |res| && (i <= limit || i == 0)
        invariant forall j :: 0 <= j < i ==>
          res[j] in RolePermRows(db, appId, roleKey) && keys[j] == db.perms[res[j].permId].key
      {
        assert res[i] in ToSet(res);
        keys := keys + [db.perms[res[i].permId].key];
        i := i + 1;
      }
      assert forall x :: x in RolePermRows(db, appId, roleKey) ==> x in ToSet(res);
      forall i, j | Valid() && appId in db.apps && 0 <= i < j < |keys| ensures keys[i] != keys[j] {
        if keys[i] == keys[j] { RolePermsDiffer(World(), appId, roleKey, res[i], res[j]); }
      }
    }

    /** The perm_keys of one role in listRoles: concatenated by the server, split by the client. */
    method ListedPermKeys(roleId: nat) returns (keys: seq<string>)
      ensures exists rows :: Enumerates(rows, LeftJoin(db, roleId)) && keys == Split(Join(NonNull(rows)))
    {
      var res := Fetch(LeftJoin(db, roleId));
      var parts := [];
      for i := 0 to |res|
        invariant parts + NonNull(res[i..]) == NonNull(res)
      {
        assert res[i..][1..] == res[i + 1..];
        if res[i].permKey.Some? { parts := parts + [res[i].permKey.value]; }
      }
      assert res[|res|..] == [] && parts == NonNull(res);
      var permsStr := "";
      if parts != [] { permsStr := JoinLoop(parts); }
      keys := SplitLoop(permsStr);
    }

    method ListRow(code: string, roleId: nat) returns (info: RoleInfo)
      requires roleId in RolesIn(db, code)
      ensures info.id == roleId && Listed(db, code, info)
    {
      var keys := ListedPermKeys(roleId);
      info := RoleInfo(roleId, db.roles[roleId].key, keys);
    }

    method ListRoles(code: string, env: Env) returns (roles: seq<RoleInfo>)
      requires Valid()
      ensures forall i :: 0 <= i < |roles| ==> Listed(db, code, roles[i])
      ensures Completes(env, true, 1) && |RolesIn(db, code)| <= env.rows ==>
        IdsOf(roles) == RolesIn(db, code) && |roles| == |RolesIn(db, code)|
    {
      roles := [];
      NoAppNoRoles(db, code);
      if !env.connected { return; }
      var appId := GetAppId(code, env.nested);
      if appId == -1 || env.statements < 1 { return; }
      RolesOfTheApp(World(), code);
      var res: seq<nat> := Fetch(set r: nat | r in db.roles && db.roles[r].appId == appId);
      DistinctLength(res);
      var i := 0;
      while i < |res| && i < env.rows
        invariant i == |roles| <= |res|
        invariant forall j :: 0 <= j < i ==> roles[j].id == res[j] && Listed(db, code, roles[j])
      {
        assert res[i] in ToSet(res);
        var info := ListRow(code, res[i]);
        roles := roles + [info];
        i := i + 1;
      }
      if i == |res| { IdsAreRows(roles, res, RolesIn(db, code)); }
    }

    // ---- mutations ----------------------------------------------------------------------------

    method CreateApp(code: string, name: string, description: string, env: Env) returns (ok: bool)
      requires Valid()
      modifies `db, `born
      ensures Valid() && Ran(old(World()), World(), Command.CreateApp(code, name, description), ok, env, matched)
    {
      EffectKeepsInv(World(), Command.CreateApp(code, name, description));
      if !env.connected || env.statements < 1 { return false; }
      var r := InsertApp(db, name, code, description);
      if r.None? { return false; }
      born := AddApp(World(), name, code, description).born;
      db := r.value;
      return true;
    }

    method UpdateApp(code: string, patch: Patch, env: Env) returns (ok: bool)
      requires Valid()
      modifies `db, `born
      ensures Valid() && Ran(old(World()), World(), Command.UpdateApp(code, patch), ok, env, matched)
    {
      EffectKeepsInv(World(), Command.UpdateApp(code, patch));
      if !env.connected { return false; }
      var columns, values := BuildUpdate(patch);
      if columns == [] { return true; }
      if env.statements < 1 { return false; }
      var touched := set a | a in AppIds(db, code) && (matched || Assign(db.apps[a], columns, values) != db.apps[a]);
      ok := touched != {};
      assert ok == Accepted(World(), Command.UpdateApp(code, patch), matched) by {
        if ok {
          var a :| a in touched;
          assert a in AppIds(db, code);
        }
        forall a | a in AppIds(db, code) && (matched || Patched(db.apps[a], patch) != db.apps[a]) ensures ok {
          assert a in touched;
        }
      }
      AssignUpdatesApps(db, code, patch, columns, values);
      db := db.(apps := AssignApps(db, code, columns, values));
    }

    method DeleteApp(code: string, env: Env) returns (ok: bool)
      requires Valid()
      modifies `db, `born
      ensures Valid() && Ran(old(World()), World(), Command.DeleteApp(code), ok, env, matched)
    {
      EffectKeepsInv(World(), Command.DeleteApp(code));
      if !env.connected || env.statements < 1 { return false; }
      var rows := |AppIds(db, code)|;
      db := DeleteApps(db, code);
      ok := rows > 0;
    }

    method CreateRole(code: string, roleKey: string, name: string, env: Env) returns (ok: bool)
      requires Valid()
      modifies `db, `born
      ensures Valid() && Ran(old(World()), World(), Command.CreateRole(code, roleKey, name), ok, env, matched)
    {
      EffectKeepsInv(World(), Command.CreateRole(code, roleKey, name));
      if !env.connected { return false; }
      var appId := GetAppId(code, env.nested);
      if appId == -1 || env.statements < 1 { return false; }
      var r := InsertRole(db, appId, roleKey);
      if r.None? { return false; }
      born := AddRole(World(), appId, roleKey).born;
      db := r.value;
      return true;
    }

    method CreatePermission(code: string, permKey: string, name: string, env: Env) returns (ok: bool)
      requires Valid()
      modifies `db, `born
      ensures Valid() && Ran(old(World()), World(), CreatePerm(code, permKey, name), ok, env, matched)
    {
      EffectKeepsInv(World(), CreatePerm(code, permKey, name));
      if !env.connected { return false; }
      var appId := GetAppId(code, env.nested);
      if appId == -1 || env.statements < 1 { return false; }
      var r := InsertPerm(db, appId, permKey, name);
      if r.None? { return false; }
      born := AddPerm(World(), appId, permKey, name).born;
      db := r.value;
      return true;
    }

    method AssignRoleToUser(code: string, user: string, roleKey: string, env: Env) returns (ok: bool)
      requires Valid()
      modifies `db, `born
      ensures Valid() && Ran(old(World()), World(), Grant(code, user, roleKey), ok, env, matched)
    {
      EffectKeepsInv(World(), Grant(code, user, roleKey));
      if !env.connected || env.statements < 1 { return false; }
      var res: seq<nat> := Fetch(RoleIds(db, code, roleKey));
      LookupsUnique(World(), code, roleKey);
      var roleId := First(res, RoleIds(db, code, roleKey));
      if roleId == -1 || env.statements < 2 { return false; }
      var r := InsertUserRole(db, UserRole(db.roles[roleId].appId, user, roleId));
      if r.None? { return false; }
      db := r.value;
      return true;
    }

    method RemoveRoleFromUser(code: string, user: string, roleKey: string, env: Env) returns (ok: bool)
      requires Valid()
      modifies `db, `born
      ensures Valid() && Ran(old(World()), World(), Revoke(code, user, roleKey), ok, env, matched)
    {
      EffectKeepsInv(World(), Revoke(code, user, roleKey));
      if !env.connected || env.statements < 1 { return false; }
      var rows := |Assignments(db, code, user, roleKey)|;
      db := DeleteAssignments(db, code, user, roleKey);
      ok := rows > 0;
    }

    method AddPermissionToRole(code: string, roleKey: string, permKey: string, env: Env) returns (ok: bool)
      requires Valid()
      modifies `db, `born
      ensures Valid() && Ran(old(World()), World(), AddPermToRole(code, roleKey, permKey), ok, env, matched)
    {
      EffectKeepsInv(World(), AddPermToRole(code, roleKey, permKey));
      if !env.connected || env.statements < 1 { return false; }
      LookupsUnique(World(), code, roleKey);
      LookupsUnique(World(), code, permKey);
      var roleRes: seq<nat> := Fetch(RoleIds(db, code, roleKey));
      var roleId := First(roleRes, RoleIds(db, code, roleKey));
      if roleId == -1 || env.statements < 2 { return false; }
      var permRes: seq<nat> := Fetch(PermIds(db, code, permKey));
      var permId := First(permRes, PermIds(db, code, permKey));
      if permId == -1 || env.statements < 3 { return false; }
      var r := InsertRolePerm(db, RolePerm(roleId, permId));
      if r.None? { return false; }
      db := r.value;
      return true;
    }

    method RemovePermissionFromRole(code: string, roleKey: string, permKey: string, env: Env) returns (ok: bool)
      requires Valid()
      modifies `db, `born
      ensures Valid() && Ran(old(World()), World(), RemovePermFromRole(code, roleKey, permKey), ok, env, matched)
    {
      EffectKeepsInv(World(), RemovePermFromRole(code, roleKey, permKey));
      if !env.connected || env.statements < 1 { return false; }
      var rows := |Bindings(db, code, roleKey, permKey)|;
      db := DeleteBindings(db, code, roleKey, permKey);
      ok := rows > 0;
    }

    method DeleteRole(code: string, roleKey: string, env: Env) returns (ok: bool)
      requires Valid()
      modifies `db, `born
      ensures Valid() && Ran(old(World()), World(), Command.DeleteRole(code, roleKey), ok, env, matched)
    {
      EffectKeepsInv(World(), Command.DeleteRole(code, roleKey));
      if !env.connected { return false; }
      var appId := GetAppId(code, env.nested);
      if appId == -1 || env.statements < 1 { return false; }
      var rows := |RolesOf(db, appId, roleKey)|;
      db := DeleteRoles(db, appId, roleKey);
      ok := rows != 0;
    }

    method DeletePermission(code: string, permKey: string, env: Env) returns (ok: bool)
      requires Valid()
      modifies `db, `born
      ensures Valid() && Ran(old(World()), World(), DeletePerm(code, permKey), ok, env, matched)
    {
      EffectKeepsInv(World(), DeletePerm(code, permKey));
      if !env.connected { return false; }
      var appId := GetAppId(code, env.nested);
      if appId == -1 || env.statements < 1 { return false; }
      var rows := |PermsOf(db, appId, permKey)|;
      db := DeletePerms(db, appId, permKey);
      ok := rows != 0;
    }

    method CreateAuditLog(row: AuditRow, env: Env) returns (ok: bool)
      modifies `auditLogs
      ensures ok == Completes(env, false, 1)
      ensures auditLogs == old(auditLogs) + if ok then [row] else []
    {
      ok := env.connected && env.statements >= 1;
      if ok { auditLogs := auditLogs + [row]; }
    }

    /** A user that is not found, or not fetched, comes back with id -1. */
    method GetConsoleUser(username: string, env: Env) returns (user: ConsoleUser)
      ensures user == if Completes(env, false, 1) && username in consoleUsers then consoleUsers[username]
                      else ConsoleUser(-1, "", "", "")
    {
      if env.connected && env.statements >= 1 && username in consoleUsers {
        return consoleUsers[username];
      }
      user := ConsoleUser(-1, "", "", "");
    }

    /** None of the columns updateRole writes is part of this model. */
    method UpdateRole(code: string, roleKey: string, env: Env) returns (ok: bool)
      requires Valid()
      ensures Ran(World(), World(), Command.UpdateRole(code, roleKey), ok, env, matched)
    {
      if !env.connected { return false; }
      var appId := GetAppId(code, env.nested);
      ok := appId != -1 && env.statements >= 1;
    }

    method UpdatePermission(code: string, permKey: string, name: Option<string>, env: Env) returns (ok: bool)
      requires Valid()
      modifies `db, `born
      ensures Valid() && Ran(old(World()), World(), UpdatePerm(code, permKey, name), ok, env, matched)
    {
      EffectKeepsInv(World(), UpdatePerm(code, permKey, name));
      if !env.connected { return false; }
      var appId := GetAppId(code, env.nested);
      if appId == -1 || env.statements < 1 { return false; }
      db := RenamePerms(db, appId, permKey, name);
      assert World() == Effect(old(World()), UpdatePerm(code, permKey, name));
      return true;
    }
  }

  // ---- listRoles ------------------------------------------------------------------------------

  datatype RoleInfo = RoleInfo(id: nat, key: string, permKeys: seq<string>)

  function IdsOf(roles: seq<RoleInfo>): set<nat> {
    set info | info in roles :: info.id
  }

  lemma IdsAreRows(roles: seq<RoleInfo>, res: seq<nat>, ids: set<nat>)
    requires Enumerates(res, ids) && |roles| == |res| && forall j :: 0 <= j < |res| ==> roles[j].id == res[j]
    ensures IdsOf(roles) == ids
  {
    forall r | r in ids ensures r in IdsOf(roles) {
      assert r in ToSet(res);
      var j :| 0 <= j < |res| && res[j] == r;
      assert roles[j] in roles;
    }
  }

  function RolesIn(db: DB, code: string): set<nat> {
    set r | r in db.roles && IsApp(db, code, db.roles[r].appId)
  }

  /** The query by app id reads the roles of the app code. */
  lemma RolesOfTheApp(w: World, code: string)
    requires Inv(w) && AppIds(w.db, code) != {}
    ensures (set r: nat | r in w.db.roles && w.db.roles[r].appId == The(AppIds(w.db, code))) == RolesIn(w.db, code)
  {
    LookupsUnique(w, code, "");
    assert forall r :: r in RolesIn(w.db, code) ==> w.db.roles[r].appId in AppIds(w.db, code);
  }

  lemma NoAppNoRoles(db: DB, code: string)
    ensures AppIds(db, code) == {} ==> RolesIn(db, code) == {}
  {
    assert forall r :: r in RolesIn(db, code) ==> db.roles[r].appId in AppIds(db, code);
  }

  ghost predicate Listed(db: DB, code: string, info: RoleInfo) {
    && info.id in RolesIn(db, code) && info.key == db.roles[info.id].key
    && exists rows :: Enumerates(rows, LeftJoin(db, info.id)) && info.permKeys == Split(Join(NonNull(rows)))
  }

  /**
   * With non-empty comma-free permission keys, a listed role carries exactly the keys
   * getRolePermissions returns for it, each once.
   */
  lemma ListedKeysAreRolePermissions(w: World, code: string, info: RoleInfo)
    requires Inv(w) && Listed(w.db, code, info)
    requires forall p :: p in w.db.perms ==> w.db.perms[p].key != "" && Free(COMMA, w.db.perms[p].key)
    ensures ToSet(info.permKeys) == RolePermKeys(w.db, w.db.roles[info.id].appId, info.key)
    ensures Distinct(info.permKeys)
  {
    var rows: seq<JoinRow> :| Enumerates(rows, LeftJoin(w.db, info.id)) && info.permKeys == Split(Join(NonNull(rows)));
    ConcatRefinesPerRoleQuery(w, info.id, rows);
    var keys := NonNull(rows);
    forall i | 0 <= i < |keys| ensures keys[i] != "" && Free(COMMA, keys[i]) {
      assert keys[i] in ToSet(keys);
    }
    RoundTripIff(keys);
  }

  // ---- guards -----------------------------------------------------------------------------------------

  /** The DAO operation a command is. */
  function OpOf(c: Command): Pool.Op {
    match c
    case CreateApp(_, _, _) => Pool.CreateApp
    case UpdateApp(_, _) => Pool.UpdateApp
    case DeleteApp(_) => Pool.DeleteApp
    case Grant(_, _, _) => Pool.AssignRoleToUser
    case Revoke(_, _, _) => Pool.RemoveRoleFromUser
    case AddPermToRole(_, _, _) => Pool.AddPermissionToRole
    case RemovePermFromRole(_, _, _) => Pool.RemovePermissionFromRole
    case CreateRole(_, _, _) => Pool.CreateRole
    case CreatePerm(_, _, _) => Pool.CreatePermission
    case DeleteRole(_, _) => Pool.DeleteRole
    case DeletePerm(_, _) => Pool.DeletePermission
    case UpdateRole(_, _) => Pool.UpdateRole
    case UpdatePerm(_, _, _) => Pool.UpdatePermission
  }

  /** What can disturb an operation is what the pool's call graph says it needs: its guard, and getAppId's. */
  lemma NeedsItsGuards(c: Command)
    ensures Pool.Guarded(OpOf(c)) <==> forall env :: Undisturbed(env, c) ==> env.connected
    ensures Pool.GetAppId in Pool.Calls(OpOf(c)) <==> forall env :: Undisturbed(env, c) ==> env.nested
  {
    assert Undisturbed(Env(true, true, 3, 0), c);
    if Pool.GetAppId !in Pool.Calls(OpOf(c)) {
      assert Undisturbed(Env(true, false, 3, 0), c);
    }
  }
}
