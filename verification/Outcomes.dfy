/**
 * What each administrative operation is for, read off the queries that follow it: which lookups find what,
 * who is allowed what, and which columns hold which values.
 */
module Outcomes {
  import opened Basics
  import opened Tables
  import opened History
  import opened Decisions
  import opened Commands
  import opened Listing
  import opened Links
  import Coherence
  import Dao

  // ---- apps -----------------------------------------------------------------------------------------------

  ghost predicate OnlyAppsDiffer(db: DB, than: DB) {
    db == than.(apps := db.apps, nextApp := db.nextApp)
  }

  /** A code not in use becomes that of one new enabled app with the given name and description. */
  lemma CreateAppAdds(w: World, code: string, name: string, description: string, other: string)
    requires Inv(w) && AppIds(w.db, code) == {}
    ensures var db, id := Effect(w, CreateApp(code, name, description)).db, w.db.nextApp;
      && id !in w.db.apps && AppIds(db, code) == {id}
      && db.apps[id].name == name && db.apps[id].description == description && db.apps[id].status == 1
      && (other != code ==> AppIds(db, other) == AppIds(w.db, other))
      && (forall a :: a in w.db.apps ==> a in db.apps && db.apps[a] == w.db.apps[a])
      && OnlyAppsDiffer(db, w.db)
  {
    assert w.db.nextApp !in w.db.apps;
  }

  /** The code is free again, for that app alone; roles, permissions and rows stay behind. */
  lemma DeleteAppFrees(w: World, code: string, other: string)
    ensures var db := Effect(w, DeleteApp(code)).db;
      && AppIds(db, code) == {} && (other != code ==> AppIds(db, other) == AppIds(w.db, other))
      && (forall a :: a in db.apps ==> a in w.db.apps && db.apps[a] == w.db.apps[a])
      && OnlyAppsDiffer(db, w.db)
  {
  }

  /** Each column named takes its value, each other column of the app and every other app stays as it is. */
  lemma UpdateAppSets(w: World, code: string, patch: Patch, a: nat)
    requires a in w.db.apps
    ensures var db := Effect(w, UpdateApp(code, patch)).db;
      && a in db.apps && db.apps.Keys == w.db.apps.Keys && db.apps[a].code == w.db.apps[a].code
      && db.apps[a].name == (match patch.name case Some(v) => if w.db.apps[a].code == code then v else w.db.apps[a].name
                                               case None => w.db.apps[a].name)
      && db.apps[a].description == (match patch.description
                                    case Some(v) => if w.db.apps[a].code == code then v else w.db.apps[a].description
                                    case None => w.db.apps[a].description)
      && db.apps[a].status == (match patch.status
                               case Some(v) => if w.db.apps[a].code == code then v else w.db.apps[a].status
                               case None => w.db.apps[a].status)
      && OnlyAppsDiffer(db, w.db)
  {
    assert Effect(w, UpdateApp(code, patch)).db.apps.Keys == w.db.apps.Keys;
  }

  /** An app given another status than 1 denies every user everything at once ... */
  lemma DisablingDenies(w: World, code: string, patch: Patch, user: string, key: string)
    requires patch.status.Some? && patch.status.value != 1
    ensures !Allowed(Effect(w, UpdateApp(code, patch)).db, code, user, key)
  {
    AllowedIsExists(Effect(w, UpdateApp(code, patch)).db, code, user, key);
  }

  /** ... and one given status 1 allows each user what the user holds, however it was before. */
  lemma EnablingAllows(w: World, code: string, patch: Patch, user: string, key: string)
    requires Inv(w) && patch.status == Some(1)
    ensures var db := Effect(w, UpdateApp(code, patch)).db;
      Allowed(db, code, user, key) <==> key in UserPermKeys(db, code, user)
  {
    var w' := Effect(w, UpdateApp(code, patch));
    EffectKeepsInv(w, UpdateApp(code, patch));
    AllowedIsExists(w'.db, code, user, key);
    if key in UserPermKeys(w'.db, code, user) {
      var c :| c in Chains(w'.db, code, user) && w'.db.perms[c.1.permId].key == key;
      UpdateAppSets(w, code, patch, c.0.appId);
      assert Grants(w'.db, c, key);
    }
  }

  // ---- roles ----------------------------------------------------------------------------------------------

  /** One new role answers to the key, unless one did already; no other lookup changes. */
  lemma CreateRoleAdds(
    w: World, code: string, appId: nat, roleKey: string, name: string, otherCode: string, other: string)
    requires Inv(w) && IsApp(w.db, code, appId)
    ensures var db := Effect(w, CreateRole(code, roleKey, name)).db;
      && RoleIds(db, code, roleKey)
         == (if RoleIds(w.db, code, roleKey) == {} then {w.db.nextRole} else RoleIds(w.db, code, roleKey))
      && ((otherCode, other) != (code, roleKey) ==> RoleIds(db, otherCode, other) == RoleIds(w.db, otherCode, other))
      && db == w.db.(roles := db.roles, nextRole := db.nextRole)
  {
    AppIsUnique(w, code, appId);
    assert RolesOf(w.db, appId, roleKey) == RoleIds(w.db, code, roleKey);
    assert w.db.nextRole !in w.db.roles;
  }

  /** No role answers to the key any more; every other does. */
  lemma DeleteRoleRemoves(w: World, code: string, appId: nat, roleKey: string, otherCode: string, other: string)
    requires Inv(w) && IsApp(w.db, code, appId)
    ensures var db := Effect(w, DeleteRole(code, roleKey)).db;
      && RoleIds(db, code, roleKey) == {}
      && ((otherCode, other) != (code, roleKey) ==> RoleIds(db, otherCode, other) == RoleIds(w.db, otherCode, other))
      && (forall r :: r in w.db.roles && r !in RoleIds(w.db, code, roleKey) ==>
            r in db.roles && db.roles[r] == w.db.roles[r])
      && db == w.db.(roles := db.roles)
  {
    AppIsUnique(w, code, appId);
    assert RolesOf(w.db, appId, roleKey) == RoleIds(w.db, code, roleKey);
  }

  // ---- permissions ----------------------------------------------------------------------------------------

  /** One new permission answers to the key, under the given name, unless one did already. */
  lemma CreatePermAdds(
    w: World, code: string, appId: nat, permKey: string, name: string, otherCode: string, other: string)
    requires Inv(w) && IsApp(w.db, code, appId)
    ensures var db := Effect(w, CreatePerm(code, permKey, name)).db;
      && (if PermIds(w.db, code, permKey) == {}
          then PermIds(db, code, permKey) == {w.db.nextPerm} && db.perms[w.db.nextPerm].name == name
          else PermIds(db, code, permKey) == PermIds(w.db, code, permKey))
      && ((otherCode, other) != (code, permKey) ==> PermIds(db, otherCode, other) == PermIds(w.db, otherCode, other))
      && (forall p :: p in w.db.perms ==> p in db.perms && db.perms[p] == w.db.perms[p])
      && (forall p :: p in db.perms && p !in w.db.perms ==> p == w.db.nextPerm)
      && db == w.db.(perms := db.perms, nextPerm := db.nextPerm)
  {
    AppIsUnique(w, code, appId);
    assert PermsOf(w.db, appId, permKey) == PermIds(w.db, code, permKey);
    assert w.db.nextPerm !in w.db.perms;
  }

  /** No permission answers to the key any more; every other does. */
  lemma DeletePermRemoves(w: World, code: string, appId: nat, permKey: string, otherCode: string, other: string)
    requires Inv(w) && IsApp(w.db, code, appId)
    ensures var db := Effect(w, DeletePerm(code, permKey)).db;
      && PermIds(db, code, permKey) == {}
      && ((otherCode, other) != (code, permKey) ==> PermIds(db, otherCode, other) == PermIds(w.db, otherCode, other))
      && (forall p :: p in w.db.perms && p !in PermIds(w.db, code, permKey) ==>
            p in db.perms && db.perms[p] == w.db.perms[p])
      && db == w.db.(perms := db.perms)
  {
    AppIsUnique(w, code, appId);
    assert PermsOf(w.db, appId, permKey) == PermIds(w.db, code, permKey);
  }

  /** getUserPermissions shows the new name for that permission of that app, and every other pair as before. */
  lemma UpdatePermShows(
    w: World, code: string, appId: nat, permKey: string, name: string, app: string, user: string, c: Chain)
    requires Inv(w) && IsApp(w.db, code, appId) && c in Chains(w.db, app, user)
    ensures var db := Effect(w, UpdatePerm(code, permKey, Some(name))).db;
      && c in Chains(db, app, user)
      && Dao.PermPair(db, c) == (w.db.perms[c.1.permId].key,
           if app == code && w.db.perms[c.1.permId].key == permKey then name else w.db.perms[c.1.permId].name)
      && db == w.db.(perms := db.perms)
  {
    JoinStaysInApp(w, app, user, c);
    AppIsUnique(w, code, appId);
  }

  // ---- what reporting success means -------------------------------------------------------------------------

  /** Commands whose success the number of inserted or deleted rows decides. */
  predicate Counted(c: Command) {
    !c.UpdateApp? && !c.UpdateRole? && !c.UpdatePerm?
  }

  /** Creating and deleting, granting and linking succeed exactly when they change the database. */
  lemma AcceptedIffChanged(w: World, c: Command, matched: bool)
    requires Inv(w) && Counted(c)
    ensures Accepted(w, c, matched) <==> Effect(w, c).db != w.db
  {
    if !Accepted(w, c, matched) {
      RefusedChangesNothing(w, c, matched);
    } else {
      AcceptedChanges(w, c, matched);
    }
  }

  lemma AcceptedChanges(w: World, c: Command, matched: bool)
    requires Inv(w) && Counted(c) && Accepted(w, c, matched)
    ensures Effect(w, c).db != w.db
  {
    var db := Effect(w, c).db;
    match c
    case DeleteApp(code) => assert The(AppIds(w.db, code)) !in db.apps;
    case DeleteRole(code, roleKey) => assert The(RolesOf(w.db, The(AppIds(w.db, code)), roleKey)) !in db.roles;
    case DeletePerm(code, permKey) => assert The(PermsOf(w.db, The(AppIds(w.db, code)), permKey)) !in db.perms;
    case Revoke(code, user, roleKey) =>
      var ur :| ur in Assignments(w.db, code, user, roleKey);
      assert ur !in db.userRoles;
    case RemovePermFromRole(code, roleKey, permKey) =>
      var rp :| rp in Bindings(w.db, code, roleKey, permKey);
      assert rp !in db.rolePerms;
    case Grant(code, user, roleKey) => assert GrantRow(w.db, code, user, roleKey) in db.userRoles;
    case AddPermToRole(code, roleKey, permKey) => assert LinkRow(w.db, code, roleKey, permKey) in db.rolePerms;
    case CreateApp(_, _, _) => assert db.nextApp != w.db.nextApp;
    case CreateRole(_, _, _) => assert db.nextRole != w.db.nextRole;
    case CreatePerm(_, _, _) => assert db.nextPerm != w.db.nextPerm;
  }

  /**
   * An app update that names a column succeeds when there is such an app, if the connector counts rows
   * matched, and when it changes something, if it counts rows changed; one that names none always does.
   */
  lemma UpdateAcceptedIff(w: World, code: string, patch: Patch, matched: bool)
    requires Inv(w)
    ensures Accepted(w, UpdateApp(code, patch), matched) <==>
      patch == Patch(None, None, None)
      || if matched then AppIds(w.db, code) != {} else Effect(w, UpdateApp(code, patch)).db != w.db
  {
    var db := UpdateApps(w.db, code, patch);
    assert forall a :: a in db.apps <==> a in w.db.apps;
    if a :| a in AppIds(w.db, code) && Patched(w.db.apps[a], patch) != w.db.apps[a] {
      assert db.apps[a] != w.db.apps[a];
    } else {
      forall a | a in w.db.apps ensures db.apps[a] == w.db.apps[a] {
        assert w.db.apps[a].code == code ==> a in AppIds(w.db, code);
      }
      assert db.apps == w.db.apps;
    }
  }

  // ---- from nothing to an allow -----------------------------------------------------------------------------

  /** An enabled app in which nobody has a role yet. */
  ghost predicate Unstaffed(w: World, code: string, a: nat) {
    && Inv(w) && IsApp(w.db, code, a) && w.db.apps[a].status == 1
    && forall ur :: ur in w.db.userRoles ==> ur.appId != a
  }

  /** ... with a role that has these permissions. */
  ghost predicate Furnished(w: World, code: string, a: nat, roleKey: string, keys: set<string>) {
    Unstaffed(w, code, a) && RoleIds(w.db, code, roleKey) != {} && RolePermKeys(w.db, a, roleKey) == keys
  }

  ghost predicate Defines(w: World, a: nat) {
    || (exists r :: r in w.db.roles && w.db.roles[r].appId == a)
    || (exists p :: p in w.db.perms && w.db.perms[p].appId == a)
  }

  lemma AppIsUnstaffed(w: World, code: string)
    requires Inv(w) && AppIds(w.db, code) == {}
    ensures var w' := Effect(w, CreateApp(code, code, ""));
      Unstaffed(w', code, w.db.nextApp) && !Defines(w', w.db.nextApp)
  {
    EffectKeepsInv(w, CreateApp(code, code, ""));
    CreateAppAdds(w, code, code, "", code);
    var w' := Effect(w, CreateApp(code, code, ""));
    assert w.db.nextApp in AppIds(w'.db, code);
    forall ur | ur in w.db.userRoles ensures ur.appId != w.db.nextApp {
      assert RowOk(w.born, ur);
    }
  }

  lemma RoleIsBare(w: World, code: string, a: nat, roleKey: string)
    requires Unstaffed(w, code, a) && !Defines(w, a)
    ensures Furnished(Effect(w, CreateRole(code, roleKey, roleKey)), code, a, roleKey, {})
  {
    var w' := Effect(w, CreateRole(code, roleKey, roleKey));
    EffectKeepsInv(w, CreateRole(code, roleKey, roleKey));
    AppIsUnique(w, code, a);
    CreateRoleAdds(w, code, a, roleKey, roleKey, code, roleKey);
    assert RoleIds(w.db, code, roleKey) == {};
    forall rp | rp in w'.db.rolePerms ensures rp !in RolePermRows(w'.db, a, roleKey) {
      assert LinkOk(w.born, rp) && rp.roleId !in RoleIds(w'.db, code, roleKey);
    }
  }

  lemma PermIsUnlinked(w: World, code: string, a: nat, roleKey: string, permKey: string)
    requires Furnished(w, code, a, roleKey, {}) && PermIds(w.db, code, permKey) == {}
    ensures var w' := Effect(w, CreatePerm(code, permKey, permKey));
      Furnished(w', code, a, roleKey, {}) && PermIds(w'.db, code, permKey) != {}
  {
    var w' := Effect(w, CreatePerm(code, permKey, permKey));
    EffectKeepsInv(w, CreatePerm(code, permKey, permKey));
    CreatePermAdds(w, code, a, permKey, permKey, code, permKey);
    assert RoleIds(w'.db, code, roleKey) == RoleIds(w.db, code, roleKey);
    NewPermIsUnlinked(w, w', a, roleKey);
  }

  /** Permissions that no row can link give no role a key. */
  lemma NewPermIsUnlinked(w: World, w': World, a: nat, roleKey: string)
    requires Inv(w) && RolePermKeys(w.db, a, roleKey) == {}
    requires w'.db == w.db.(perms := w'.db.perms, nextPerm := w'.db.nextPerm)
    requires forall p :: p in w'.db.perms && p !in w.db.perms ==> p >= w.db.nextPerm
    ensures RolePermKeys(w'.db, a, roleKey) == {}
  {
    NoKeysNoRows(w.db, a, roleKey);
    forall rp | rp in w.db.rolePerms ensures rp !in RolePermRows(w'.db, a, roleKey) {
      assert LinkOk(w.born, rp) && rp !in RolePermRows(w.db, a, roleKey);
    }
  }

  lemma NoKeysNoRows(db: DB, a: nat, roleKey: string)
    ensures RolePermKeys(db, a, roleKey) == {} <==> RolePermRows(db, a, roleKey) == {}
  {
    if rp :| rp in RolePermRows(db, a, roleKey) {
      assert db.perms[rp.permId].key in RolePermKeys(db, a, roleKey);
    }
  }

  lemma RoleIsLinked(w: World, code: string, a: nat, roleKey: string, permKey: string)
    requires Furnished(w, code, a, roleKey, {}) && PermIds(w.db, code, permKey) != {}
    ensures Furnished(Effect(w, AddPermToRole(code, roleKey, permKey)), code, a, roleKey, {permKey})
  {
    EffectKeepsInv(w, AddPermToRole(code, roleKey, permKey));
    LinkIsPrecise(w, code, a, roleKey, permKey, a, roleKey);
    assert RoleIds(Effect(w, AddPermToRole(code, roleKey, permKey)).db, code, roleKey) == RoleIds(w.db, code, roleKey);
  }

  lemma GrantAllows(
    w: World, code: string, a: nat, roleKey: string, keys: set<string>, user: string, other: string, key: string)
    requires Furnished(w, code, a, roleKey, keys)
    ensures Allowed(Effect(w, Grant(code, user, roleKey)).db, code, other, key) <==> other == user && key in keys
  {
    var grant := Grant(code, user, roleKey);
    AppIsUnique(w, code, a);
    assert Chains(w.db, code, other) == {};
    EffectKeepsInv(w, grant);
    if other == user {
      GrantIsPrecise(w, code, a, user, roleKey);
    } else {
      Coherence.GrantStaysWithUser(w, grant, code, other);
    }
    assert IsApp(Effect(w, grant).db, code, a);
    PathsAgree(Effect(w, grant), code, other, key);
  }

  /** A new app's role is given a permission and a user is given the role. */
  ghost function Onboarded(w: World, code: string, roleKey: string, permKey: string, user: string): World {
    var w1 := Effect(w, CreateApp(code, code, ""));
    var w2 := Effect(w1, CreateRole(code, roleKey, roleKey));
    var w3 := Effect(w2, CreatePerm(code, permKey, permKey));
    Effect(Effect(w3, AddPermToRole(code, roleKey, permKey)), Grant(code, user, roleKey))
  }

  /** Then that user, and nobody else, is allowed that, and nothing else, in the app. */
  lemma OnboardingAllows(
    w: World, code: string, roleKey: string, permKey: string, user: string, other: string, key: string)
    requires Inv(w) && AppIds(w.db, code) == {}
    ensures Allowed(Onboarded(w, code, roleKey, permKey, user).db, code, other, key)
       <==> other == user && key == permKey
  {
    var a, w1 := w.db.nextApp, Effect(w, CreateApp(code, code, ""));
    AppIsUnstaffed(w, code);
    var w2 := Effect(w1, CreateRole(code, roleKey, roleKey));
    RoleIsBare(w1, code, a, roleKey);
    PermIsUndefined(w1, code, a, roleKey, permKey);
    var w3 := Effect(w2, CreatePerm(code, permKey, permKey));
    PermIsUnlinked(w2, code, a, roleKey, permKey);
    var w4 := Effect(w3, AddPermToRole(code, roleKey, permKey));
    RoleIsLinked(w3, code, a, roleKey, permKey);
    GrantAllows(w4, code, a, roleKey, {permKey}, user, other, key);
  }

  lemma PermIsUndefined(w: World, code: string, a: nat, roleKey: string, permKey: string)
    requires Unstaffed(w, code, a) && !Defines(w, a)
    ensures PermIds(Effect(w, CreateRole(code, roleKey, roleKey)).db, code, permKey) == {}
  {
    AppIsUnique(w, code, a);
    CreateRoleAdds(w, code, a, roleKey, roleKey, code, roleKey);
  }
}
