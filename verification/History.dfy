/**
 * The database together with what it has forgotten: the code every app id was created under and
 * the app id every role id and permission id was created under, deleted rows included.  The
 * history is auxiliary, no query reads it; it is what makes the tables' invariant expressible,
 * because sys_user_roles and sys_role_permissions keep rows whose ids no longer resolve.
 */
module History {
  import opened Basics
  import opened Tables

  datatype Births = Births(appCode: map<nat, string>, roleApp: map<nat, nat>, permApp: map<nat, nat>)
  datatype World = World(db: DB, born: Births)

  const GENESIS := World(EMPTY, Births(map[], map[], map[]))

  // ---- the invariant -------------------------------------------------------------------

  /** App ids come from the counter, and a live app is the newest one ever created with its code. */
  ghost predicate AppsOk(w: World) {
    && (forall a :: a in w.born.appCode ==> a < w.db.nextApp)
    && (forall a :: a in w.db.apps ==> a in w.born.appCode && w.born.appCode[a] == w.db.apps[a].code)
    && (forall a, b :: a in w.db.apps && b in w.born.appCode && w.born.appCode[b] == w.db.apps[a].code ==> b <= a)
  }

  ghost predicate RolesOk(w: World) {
    && (forall r :: r in w.born.roleApp ==> r < w.db.nextRole && w.born.roleApp[r] in w.born.appCode)
    && (forall r :: r in w.db.roles ==> r in w.born.roleApp && w.born.roleApp[r] == w.db.roles[r].appId)
    && (forall r, s :: r in w.db.roles && s in w.db.roles && w.db.roles[r] == w.db.roles[s] ==> r == s)
  }

  predicate SameSlot(p: Perm, q: Perm) {
    p.appId == q.appId && p.key == q.key
  }

  ghost predicate PermsOk(w: World) {
    && (forall p :: p in w.born.permApp ==> p < w.db.nextPerm && w.born.permApp[p] in w.born.appCode)
    && (forall p :: p in w.db.perms ==> p in w.born.permApp && w.born.permApp[p] == w.db.perms[p].appId)
    && (forall p, q :: p in w.db.perms && q in w.db.perms && SameSlot(w.db.perms[p], w.db.perms[q]) ==> p == q)
  }

  /** A user-role row carries the app its role id was created under. */
  ghost predicate RowOk(born: Births, ur: UserRole) {
    ur.roleId in born.roleApp && born.roleApp[ur.roleId] == ur.appId
  }

  /** A role-permission row joins ids created under one app code, the permission's app not older. */
  ghost predicate LinkOk(born: Births, rp: RolePerm) {
    && rp.roleId in born.roleApp && rp.permId in born.permApp
    && born.roleApp[rp.roleId] in born.appCode && born.permApp[rp.permId] in born.appCode
    && born.appCode[born.roleApp[rp.roleId]] == born.appCode[born.permApp[rp.permId]]
    && born.roleApp[rp.roleId] <= born.permApp[rp.permId]
  }

  ghost predicate RowsOk(w: World) {
    && (forall ur :: ur in w.db.userRoles ==> RowOk(w.born, ur))
    && (forall rp :: rp in w.db.rolePerms ==> LinkOk(w.born, rp))
  }

  ghost predicate Inv(w: World) {
    AppsOk(w) && RolesOk(w) && PermsOk(w) && RowsOk(w)
  }

  /** History is append-only: what is known of an id never changes. */
  ghost predicate Grows(b: Births, c: Births) {
    && (forall a :: a in b.appCode ==> a in c.appCode && c.appCode[a] == b.appCode[a])
    && (forall r :: r in b.roleApp ==> r in c.roleApp && c.roleApp[r] == b.roleApp[r])
    && (forall p :: p in b.permApp ==> p in c.permApp && c.permApp[p] == b.permApp[p])
  }

  // ---- statements that hand out ids, with the history they leave -------------------------

  function AddApp(w: World, name: string, code: string, description: string): World {
    match InsertApp(w.db, name, code, description)
    case None => w
    case Some(db) => World(db, w.born.(appCode := w.born.appCode[w.db.nextApp := code]))
  }

  function AddRole(w: World, appId: nat, key: string): World {
    match InsertRole(w.db, appId, key)
    case None => w
    case Some(db) => World(db, w.born.(roleApp := w.born.roleApp[w.db.nextRole := appId]))
  }

  function AddPerm(w: World, appId: nat, key: string, name: string): World {
    match InsertPerm(w.db, appId, key, name)
    case None => w
    case Some(db) => World(db, w.born.(permApp := w.born.permApp[w.db.nextPerm := appId]))
  }

  /** A statement that only inserts link rows, updates or deletes leaves the history alone. */
  function Put(w: World, result: Option<DB>): World {
    if result.Some? then w.(db := result.value) else w
  }

  // ---- each statement keeps the invariant ------------------------------------------------

  lemma AddAppKeeps(w: World, name: string, code: string, description: string)
    requires Inv(w)
    ensures Inv(AddApp(w, name, code, description)) && Grows(w.born, AddApp(w, name, code, description).born)
  {
    if AppIds(w.db, code) == {} {
      forall a | a in w.db.apps ensures w.db.apps[a].code != code {
        assert a !in AppIds(w.db, code);
      }
    }
  }

  lemma AddRoleKeeps(w: World, appId: nat, key: string)
    requires Inv(w) && appId in w.born.appCode
    ensures Inv(AddRole(w, appId, key)) && Grows(w.born, AddRole(w, appId, key).born)
  {
    if RolesOf(w.db, appId, key) == {} {
      forall r | r in w.db.roles ensures w.db.roles[r] != Role(appId, key) {
        assert r !in RolesOf(w.db, appId, key);
      }
    }
  }

  lemma AddPermKeeps(w: World, appId: nat, key: string, name: string)
    requires Inv(w) && appId in w.born.appCode
    ensures Inv(AddPerm(w, appId, key, name)) && Grows(w.born, AddPerm(w, appId, key, name).born)
  {
    if PermsOf(w.db, appId, key) == {} {
      forall p | p in w.db.perms ensures !(w.db.perms[p].appId == appId && w.db.perms[p].key == key) {
        assert p !in PermsOf(w.db, appId, key);
      }
    }
  }

  lemma InsertsKeep(w: World, ur: UserRole, rp: RolePerm)
    requires Inv(w)
    ensures RowOk(w.born, ur) ==> Inv(Put(w, InsertUserRole(w.db, ur)))
    ensures LinkOk(w.born, rp) ==> Inv(Put(w, InsertRolePerm(w.db, rp)))
  {
  }

  lemma UpdateAppsKeeps(w: World, code: string, patch: Patch)
    requires Inv(w)
    ensures Inv(w.(db := UpdateApps(w.db, code, patch)))
  {
    var db := UpdateApps(w.db, code, patch);
    assert forall a :: a in db.apps <==> a in w.db.apps;
    assert forall a :: a in db.apps ==> db.apps[a].code == w.db.apps[a].code;
  }

  lemma RenamePermsKeeps(w: World, appId: nat, key: string, name: Option<string>)
    requires Inv(w)
    ensures Inv(w.(db := RenamePerms(w.db, appId, key, name)))
  {
    var db := RenamePerms(w.db, appId, key, name);
    assert forall p :: p in db.perms <==> p in w.db.perms;
    assert forall p :: p in db.perms ==> SameSlot(db.perms[p], w.db.perms[p]);
  }

  /** Rows may be gone, and nothing else has happened. */
  predicate Fewer(db: DB, than: DB) {
    && db.nextApp == than.nextApp && db.nextRole == than.nextRole && db.nextPerm == than.nextPerm
    && (forall a :: a in db.apps ==> a in than.apps && db.apps[a] == than.apps[a])
    && (forall r :: r in db.roles ==> r in than.roles && db.roles[r] == than.roles[r])
    && (forall p :: p in db.perms ==> p in than.perms && db.perms[p] == than.perms[p])
    && db.userRoles <= than.userRoles && db.rolePerms <= than.rolePerms
  }

  /** The invariant survives the loss of any rows of any tables. */
  lemma FewerKeeps(w: World, db: DB)
    requires Inv(w) && Fewer(db, w.db)
    ensures Inv(w.(db := db))
  {
  }

  lemma DeletesKeep(w: World, code: string, appId: nat, key: string, user: string, permKey: string)
    requires Inv(w)
    ensures Inv(w.(db := DeleteApps(w.db, code)))
    ensures Inv(w.(db := DeleteRoles(w.db, appId, key)))
    ensures Inv(w.(db := DeletePerms(w.db, appId, key)))
    ensures Inv(w.(db := DeleteAssignments(w.db, code, user, key)))
    ensures Inv(w.(db := DeleteBindings(w.db, code, key, permKey)))
  {
    FewerKeeps(w, DeleteApps(w.db, code));
    FewerKeeps(w, DeleteRoles(w.db, appId, key));
    FewerKeeps(w, DeletePerms(w.db, appId, key));
    FewerKeeps(w, DeleteAssignments(w.db, code, user, key));
    FewerKeeps(w, DeleteBindings(w.db, code, key, permKey));
  }

  // ---- uniqueness of lookups -------------------------------------------------------------

  /** One live app per code; one role and one permission per (app code, key). */
  lemma LookupsUnique(w: World, code: string, key: string)
    requires Inv(w)
    ensures forall a, b :: a in AppIds(w.db, code) && b in AppIds(w.db, code) ==> a == b
    ensures forall r, s :: r in RoleIds(w.db, code, key) && s in RoleIds(w.db, code, key) ==> r == s
    ensures forall p, q :: p in PermIds(w.db, code, key) && q in PermIds(w.db, code, key) ==> p == q
  {
    forall a, b | a in AppIds(w.db, code) && b in AppIds(w.db, code) ensures a == b {
      assert b <= a && a <= b;
    }
    forall r, s | r in RoleIds(w.db, code, key) && s in RoleIds(w.db, code, key) ensures r == s {
      assert w.db.roles[r].appId in AppIds(w.db, code) && w.db.roles[s].appId in AppIds(w.db, code);
    }
    forall p, q | p in PermIds(w.db, code, key) && q in PermIds(w.db, code, key) ensures p == q {
      assert w.db.perms[p].appId in AppIds(w.db, code) && w.db.perms[q].appId in AppIds(w.db, code);
    }
  }
}
