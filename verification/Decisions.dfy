/**
 * The decision queries, as the joins the SQL writes, and what they mean in every reachable state.
 * None of the joins compares the permission's app or the role's app with the requested app.
 */
module Decisions {
  import opened Basics
  import opened Tables
  import opened History
  import opened StoreRuns

  type Chain = (UserRole, RolePerm)

  /** sys_user_roles JOIN sys_apps JOIN sys_role_permissions JOIN sys_permissions for one app code and user. */
  function Chains(db: DB, code: string, user: string): set<Chain> {
    set ur, rp | ur in db.userRoles && rp in db.rolePerms && IsApp(db, code, ur.appId) && ur.userId == user
                 && ur.roleId == rp.roleId && rp.permId in db.perms :: (ur, rp)
  }

  /** The permission keys getUserPermissions returns: app status is not tested. */
  function UserPermKeys(db: DB, code: string, user: string): set<string> {
    set c | c in Chains(db, code, user) :: db.perms[c.1.permId].key
  }

  /** The chain ends in that permission, and its app is enabled. */
  predicate Grants(db: DB, c: Chain, key: string)
    requires c.1.permId in db.perms && c.0.appId in db.apps
  {
    db.perms[c.1.permId].key == key && db.apps[c.0.appId].status == ENABLED
  }

  /** The rows checkPermission counts. */
  function AllowRows(db: DB, code: string, user: string, key: string): set<Chain> {
    set c | c in Chains(db, code, user) && Grants(db, c, key)
  }

  predicate Allowed(db: DB, code: string, user: string, key: string) {
    |AllowRows(db, code, user, key)| > 0
  }

  /** The rows getUserRoles reads: the role row must still exist. */
  function UserRoleRows(db: DB, code: string, user: string): set<UserRole> {
    set ur | ur in db.userRoles && IsApp(db, code, ur.appId) && ur.userId == user
             && ur.roleId in db.roles && db.apps[ur.appId].status == ENABLED
  }

  function UserRoleKeys(db: DB, code: string, user: string): set<string> {
    set ur | ur in UserRoleRows(db, code, user) :: db.roles[ur.roleId].key
  }

  /** No two of them are for roles with one key. */
  lemma UserRolesDiffer(w: World, code: string, user: string, x: UserRole, y: UserRole)
    requires Inv(w) && x in UserRoleRows(w.db, code, user) && y in UserRoleRows(w.db, code, user)
    requires w.db.roles[x.roleId].key == w.db.roles[y.roleId].key
    ensures x == y
  {
    LookupsUnique(w, code, "");
    assert x.appId in AppIds(w.db, code) && y.appId in AppIds(w.db, code);
    assert RowOk(w.born, x) && RowOk(w.born, y);
    assert w.db.roles[x.roleId] == w.db.roles[y.roleId];
  }

  /** The rows getRolesWithPermission reads for an app id. */
  function GrantingRows(db: DB, appId: nat, permKey: string): set<RolePerm> {
    set rp | rp in db.rolePerms && rp.roleId in db.roles && rp.permId in db.perms
             && db.roles[rp.roleId].appId == appId && db.perms[rp.permId].key == permKey
  }

  function GrantingRoleKeys(db: DB, appId: nat, permKey: string): set<string> {
    set rp | rp in GrantingRows(db, appId, permKey) :: db.roles[rp.roleId].key
  }

  // ---- app isolation -------------------------------------------------------------------------

  /**
   * Every permission a decision join yields is defined in the requested app, and every role it
   * passes through was created in it, although neither is a join condition.
   */
  lemma JoinStaysInApp(w: World, code: string, user: string, c: Chain)
    requires Inv(w) && c in Chains(w.db, code, user)
    ensures IsApp(w.db, code, w.db.perms[c.1.permId].appId)
    ensures w.db.perms[c.1.permId].appId == c.0.appId == w.born.roleApp[c.1.roleId]
    ensures c.1.roleId in w.db.roles ==> w.db.roles[c.1.roleId].appId == c.0.appId
  {
    var a, b := c.0.appId, w.born.permApp[c.1.permId];
    assert RowOk(w.born, c.0) && LinkOk(w.born, c.1);
    assert a <= b <= a;
  }

  /** App isolation of every answer in every interleaving. */
  lemma IsolationInEveryRun(es: seq<Event>, code: string, user: string, key: string)
    ensures var db := Run(START, es).w.db;
      && (key in UserPermKeys(db, code, user) ==> PermIds(db, code, key) != {})
      && (Allowed(db, code, user, key) ==> PermIds(db, code, key) != {})
  {
    StartIsSafe();
    EveryRunIsSafe(START, es);
    var w := Run(START, es).w;
    AllowedIsExists(w.db, code, user, key);
    forall c | c in Chains(w.db, code, user) ensures c.1.permId in PermIds(w.db, code, w.db.perms[c.1.permId].key) {
      JoinStaysInApp(w, code, user, c);
    }
  }

  // ---- the three decision paths ----------------------------------------------------------------

  lemma AllowedIsExists(db: DB, code: string, user: string, key: string)
    ensures Allowed(db, code, user, key) <==> exists c :: c in Chains(db, code, user) && Grants(db, c, key)
  {
    var rows := AllowRows(db, code, user, key);
    if Allowed(db, code, user, key) {
      var c :| c in rows;
    }
    forall c | c in rows ensures |rows| > 0 {
      assert {c} <= rows;
      SubsetSize({c}, rows);
    }
    assert forall c :: c in Chains(db, code, user) && Grants(db, c, key) ==> c in rows;
  }

  /** Set membership in the loaded keys and the COUNT join agree for an enabled app ... */
  lemma PathsAgree(w: World, code: string, user: string, key: string)
    requires Inv(w)
    requires exists a :: IsApp(w.db, code, a) && w.db.apps[a].status == ENABLED
    ensures Allowed(w.db, code, user, key) <==> key in UserPermKeys(w.db, code, user)
  {
    AllowedIsExists(w.db, code, user, key);
    LookupsUnique(w, code, key);
    var a :| IsApp(w.db, code, a) && w.db.apps[a].status == ENABLED;
    forall c | c in Chains(w.db, code, user) ensures c.0.appId == a {
      assert a in AppIds(w.db, code) && c.0.appId in AppIds(w.db, code);
    }
  }

  /** ... and for any other app the COUNT join denies, whatever is granted. */
  lemma DisabledDenies(db: DB, code: string, user: string, key: string)
    ensures Allowed(db, code, user, key) ==> exists a :: IsApp(db, code, a) && db.apps[a].status == ENABLED
  {
    AllowedIsExists(db, code, user, key);
  }

  // ---- what an allow means ---------------------------------------------------------------------

  /** A chain whose role row has been deleted still grants: the joins never read sys_roles. */
  predicate ViaDeletedRole(db: DB, code: string, user: string, key: string) {
    exists c | c in Chains(db, code, user) :: c.0.roleId !in db.roles && db.perms[c.1.permId].key == key
  }

  predicate RolesMeet(db: DB, code: string, appId: nat, user: string, key: string) {
    UserRoleKeys(db, code, user) * GrantingRoleKeys(db, appId, key) != {}
  }

  /** An allow is a role key in both lists, or a chain through a deleted role. */
  lemma AllowMeaning(w: World, code: string, appId: nat, user: string, key: string)
    requires Inv(w) && IsApp(w.db, code, appId) && w.db.apps[appId].status == ENABLED
    ensures Allowed(w.db, code, user, key)
       <==> RolesMeet(w.db, code, appId, user, key) || ViaDeletedRole(w.db, code, user, key)
  {
    PathsAgree(w, code, user, key);
    if RolesMeet(w.db, code, appId, user, key) {
      MeetIsAllowed(w, code, appId, user, key);
    }
    forall c | c in Chains(w.db, code, user) && w.db.perms[c.1.permId].key == key && c.0.roleId in w.db.roles
      ensures RolesMeet(w.db, code, appId, user, key)
    {
      ChainGivesMeet(w, code, appId, user, key, c);
    }
    if Allowed(w.db, code, user, key) && !ViaDeletedRole(w.db, code, user, key) {
      var c :| c in Chains(w.db, code, user) && w.db.perms[c.1.permId].key == key;
    }
  }

  lemma ChainGivesMeet(w: World, code: string, appId: nat, user: string, key: string, c: Chain)
    requires Inv(w) && IsApp(w.db, code, appId) && w.db.apps[appId].status == ENABLED
    requires c in Chains(w.db, code, user) && w.db.perms[c.1.permId].key == key && c.0.roleId in w.db.roles
    ensures RolesMeet(w.db, code, appId, user, key)
  {
    JoinStaysInApp(w, code, user, c);
    LookupsUnique(w, code, key);
    assert c.0.appId in AppIds(w.db, code) && appId in AppIds(w.db, code);
    assert c.0 in UserRoleRows(w.db, code, user) && c.1 in GrantingRows(w.db, appId, key);
    assert w.db.roles[c.0.roleId].key in UserRoleKeys(w.db, code, user) * GrantingRoleKeys(w.db, appId, key);
  }

  /** A common role key is one role row, because keys are unique within the app. */
  lemma MeetGivesChain(w: World, code: string, appId: nat, user: string, key: string)
    requires Inv(w) && IsApp(w.db, code, appId)
    requires RolesMeet(w.db, code, appId, user, key)
    ensures exists c :: c in Chains(w.db, code, user) && Grants(w.db, c, key)
  {
    var db := w.db;
    var k :| k in UserRoleKeys(db, code, user) * GrantingRoleKeys(db, appId, key);
    var ur :| ur in UserRoleRows(db, code, user) && db.roles[ur.roleId].key == k;
    var rp :| rp in GrantingRows(db, appId, key) && db.roles[rp.roleId].key == k;
    LookupsUnique(w, code, k);
    assert ur.appId in AppIds(db, code) && appId in AppIds(db, code);
    assert RowOk(w.born, ur);
    assert db.roles[ur.roleId] == db.roles[rp.roleId];
    assert (ur, rp) in Chains(db, code, user);
  }

  ghost predicate NoDanglingRoles(db: DB) {
    forall ur :: ur in db.userRoles ==> ur.roleId in db.roles
  }

  lemma AllowIsRoleIntersection(w: World, code: string, appId: nat, user: string, key: string)
    requires Inv(w) && IsApp(w.db, code, appId) && w.db.apps[appId].status == ENABLED && NoDanglingRoles(w.db)
    ensures Allowed(w.db, code, user, key) <==> RolesMeet(w.db, code, appId, user, key)
  {
    AllowMeaning(w, code, appId, user, key);
  }

  /**
   * A denial's explanation never contradicts itself: none of the user's current roles is among the
   * roles suggested.  `denied` is the agent's COUNT join or the server's freshly loaded set.
   */
  lemma DenialsAreConsistent(w: World, code: string, appId: nat, user: string, key: string)
    requires Inv(w) && IsApp(w.db, code, appId)
    requires !Allowed(w.db, code, user, key) || key !in UserPermKeys(w.db, code, user)
    ensures UserRoleKeys(w.db, code, user) * GrantingRoleKeys(w.db, appId, key) == {}
  {
    if RolesMeet(w.db, code, appId, user, key) {
      MeetIsAllowed(w, code, appId, user, key);
    }
  }

  lemma MeetIsAllowed(w: World, code: string, appId: nat, user: string, key: string)
    requires Inv(w) && IsApp(w.db, code, appId) && RolesMeet(w.db, code, appId, user, key)
    ensures Allowed(w.db, code, user, key) && key in UserPermKeys(w.db, code, user)
  {
    MeetGivesChain(w, code, appId, user, key);
    AllowedIsExists(w.db, code, user, key);
    var c :| c in Chains(w.db, code, user) && w.db.perms[c.1.permId].key == key;
  }

  // ---- nothing old is inherited ----------------------------------------------------------------

  /** Nobody holds a permission just created, also under a key that was deleted while still linked. */
  lemma NewPermissionIsUnheld(s: State, appId: nat, code: string, user: string, key: string, name: string)
    requires Safe(s) && IsApp(s.w.db, code, appId)
    requires PermsOf(s.w.db, appId, key) == {}
    ensures var db := AddPerm(s.w, appId, key, name).db;
      PermIds(db, code, key) != {} && key !in UserPermKeys(db, code, user) && !Allowed(db, code, user, key)
  {
    var w := AddPerm(s.w, appId, key, name);
    AddPermKeeps(s.w, appId, key, name);
    LookupsUnique(w, code, key);
    FreshIdsUnused(s, s.w.db.nextPerm);
    assert s.w.db.nextPerm in PermIds(w.db, code, key);
    forall c | c in Chains(w.db, code, user) ensures w.db.perms[c.1.permId].key != key {
      JoinStaysInApp(w, code, user, c);
      assert c.1.permId in PermIds(w.db, code, w.db.perms[c.1.permId].key);
    }
    AllowedIsExists(w.db, code, user, key);
  }

  /** ... nor later, through any run, until some call has looked the new permission up in order to link it. */
  lemma UnheldUntilLinked(s: State, es: seq<Event>, p: nat, code: string, user: string, c: Chain)
    requires PermUnused(s, p) && forall i :: 0 <= i < |es| ==> !(es[i].FindLinkPerm? && es[i].id == p)
    requires c in Chains(Run(s, es).w.db, code, user)
    ensures c.1.permId != p
  {
    NeverRevived(s, es, p);
  }

  /** Nobody holds anything in an app just created, also under a code that was deleted. */
  lemma NewAppIsEmpty(s: State, name: string, code: string, description: string, user: string, key: string)
    requires Safe(s) && AppIds(s.w.db, code) == {}
    ensures var db := AddApp(s.w, name, code, description).db;
      AppIds(db, code) != {} && UserPermKeys(db, code, user) == {} && UserRoleKeys(db, code, user) == {}
      && !Allowed(db, code, user, key)
  {
    var w := AddApp(s.w, name, code, description);
    AddAppKeeps(s.w, name, code, description);
    LookupsUnique(w, code, key);
    FreshIdsUnused(s, s.w.db.nextApp);
    assert s.w.db.nextApp in AppIds(w.db, code);
    forall ur | ur in w.db.userRoles ensures !IsApp(w.db, code, ur.appId) {
      assert ur.appId in w.db.apps && w.db.apps[ur.appId].code == code ==> ur.appId in AppIds(w.db, code);
    }
    assert Chains(w.db, code, user) == {};
    AllowedIsExists(w.db, code, user, key);
  }

  /** The rows of getRoleUsers and getRolePermissions. */
  function RoleUserRows(db: DB, appId: nat, roleKey: string): set<UserRole> {
    set ur | ur in db.userRoles && ur.roleId in db.roles
             && db.roles[ur.roleId].appId == appId && db.roles[ur.roleId].key == roleKey
  }

  function RolePermRows(db: DB, appId: nat, roleKey: string): set<RolePerm> {
    set rp | rp in db.rolePerms && rp.roleId in db.roles && rp.permId in db.perms
             && db.roles[rp.roleId].appId == appId && db.roles[rp.roleId].key == roleKey
  }

  /** A role just created has no users and no permissions, also under a key that was deleted. */
  lemma NewRoleIsBare(s: State, appId: nat, key: string)
    requires Safe(s) && appId in s.w.born.appCode && RolesOf(s.w.db, appId, key) == {}
    ensures var db := AddRole(s.w, appId, key).db;
      RolesOf(db, appId, key) != {} && RoleUserRows(db, appId, key) == {} && RolePermRows(db, appId, key) == {}
  {
    var w := AddRole(s.w, appId, key);
    FreshIdsUnused(s, s.w.db.nextRole);
    assert s.w.db.nextRole in RolesOf(w.db, appId, key);
    forall r | r in s.w.db.roles ensures s.w.db.roles[r] != Role(appId, key) {
      assert r !in RolesOf(s.w.db, appId, key);
    }
  }
}
