/** Linking a permission to a role and unlinking it, for roles and for users; and what a grant gives. */
module Links {
  import opened Basics
  import opened Tables
  import opened History
  import opened Decisions
  import opened Commands
  import opened Listing

  /** The role and the permission of the live app, and the row that links them. */
  ghost predicate Named(w: World, code: string, roleKey: string, permKey: string, row: RolePerm) {
    row.roleId in RoleIds(w.db, code, roleKey) && row.permId in PermIds(w.db, code, permKey)
  }

  lemma LinkRowIs(w: World, code: string, roleKey: string, permKey: string, row: RolePerm)
    requires Inv(w) && Named(w, code, roleKey, permKey, row)
    ensures LinkRow(w.db, code, roleKey, permKey) == row
  {
    LookupsUnique(w, code, roleKey);
    LookupsUnique(w, code, permKey);
  }

  /** The rows an unlink removes are that one row or none, although it does not compare the permission's app. */
  lemma BindingsAre(w: World, code: string, roleKey: string, permKey: string, rp: RolePerm)
    requires Inv(w)
    ensures rp in Bindings(w.db, code, roleKey, permKey)
       <==> rp in w.db.rolePerms && Named(w, code, roleKey, permKey, rp)
  {
    if rp in Bindings(w.db, code, roleKey, permKey) {
      LiveLinkInApp(w, rp);
    }
  }

  /** Linking an absent row and unlinking it gives the same database back. */
  lemma UnlinkUndoesLink(w: World, code: string, roleKey: string, permKey: string, row: RolePerm)
    requires Inv(w) && Named(w, code, roleKey, permKey, row) && row !in w.db.rolePerms
    ensures var linked := Effect(w, AddPermToRole(code, roleKey, permKey));
      row in linked.db.rolePerms && Effect(linked, RemovePermFromRole(code, roleKey, permKey)) == w
  {
    var linked := Effect(w, AddPermToRole(code, roleKey, permKey));
    LinkRowIs(w, code, roleKey, permKey, row);
    EffectKeepsInv(w, AddPermToRole(code, roleKey, permKey));
    OnlyRow(linked, code, roleKey, permKey, row);
    assert linked.db.rolePerms - {row} == w.db.rolePerms;
  }

  /** Unlinking a present row and linking it again gives the same database back. */
  lemma LinkUndoesUnlink(w: World, code: string, roleKey: string, permKey: string, row: RolePerm)
    requires Inv(w) && Named(w, code, roleKey, permKey, row) && row in w.db.rolePerms
    ensures var unlinked := Effect(w, RemovePermFromRole(code, roleKey, permKey));
      row !in unlinked.db.rolePerms && Effect(unlinked, AddPermToRole(code, roleKey, permKey)) == w
  {
    var unlinked := Effect(w, RemovePermFromRole(code, roleKey, permKey));
    EffectKeepsInv(w, RemovePermFromRole(code, roleKey, permKey));
    OnlyRow(w, code, roleKey, permKey, row);
    LinkRowIs(unlinked, code, roleKey, permKey, row);
    assert unlinked.db.rolePerms + {row} == w.db.rolePerms;
  }

  lemma OnlyRow(w: World, code: string, roleKey: string, permKey: string, row: RolePerm)
    requires Inv(w) && Named(w, code, roleKey, permKey, row) && row in w.db.rolePerms
    ensures Bindings(w.db, code, roleKey, permKey) == {row}
  {
    LinkRowIs(w, code, roleKey, permKey, row);
    BindingsAre(w, code, roleKey, permKey, row);
    forall rp | rp in Bindings(w.db, code, roleKey, permKey) ensures rp == row {
      BindingsAre(w, code, roleKey, permKey, rp);
      LinkRowIs(w, code, roleKey, permKey, rp);
    }
  }

  // ---- for roles ----------------------------------------------------------------------------------------

  /** An unlink takes that permission from that role of the app, and nothing from any other. */
  lemma UnlinkIsPrecise(
    w: World, code: string, appId: nat, roleKey: string, permKey: string, otherApp: nat, other: string)
    requires Inv(w) && IsApp(w.db, code, appId)
    ensures var db := Effect(w, RemovePermFromRole(code, roleKey, permKey)).db;
      && RolePermKeys(db, appId, roleKey) == RolePermKeys(w.db, appId, roleKey) - {permKey}
      && ((otherApp, other) != (appId, roleKey) ==>
            RolePermKeys(db, otherApp, other) == RolePermKeys(w.db, otherApp, other))
  {
    var db := Effect(w, RemovePermFromRole(code, roleKey, permKey)).db;
    AppIsUnique(w, code, appId);
    assert forall rp :: rp in RolePermRows(db, appId, roleKey) <==>
      rp in RolePermRows(w.db, appId, roleKey) && w.db.perms[rp.permId].key != permKey;
    if (otherApp, other) != (appId, roleKey) {
      assert RolePermRows(db, otherApp, other) == RolePermRows(w.db, otherApp, other);
    }
  }

  /** A link gives that permission to that role of the app, and nothing to any other. */
  lemma LinkIsPrecise(
    w: World, code: string, appId: nat, roleKey: string, permKey: string, otherApp: nat, other: string)
    requires Inv(w) && IsApp(w.db, code, appId)
    requires RoleIds(w.db, code, roleKey) != {} && PermIds(w.db, code, permKey) != {}
    ensures var db := Effect(w, AddPermToRole(code, roleKey, permKey)).db;
      && RolePermKeys(db, appId, roleKey) == RolePermKeys(w.db, appId, roleKey) + {permKey}
      && ((otherApp, other) != (appId, roleKey) ==>
            RolePermKeys(db, otherApp, other) == RolePermKeys(w.db, otherApp, other))
  {
    var db := Effect(w, AddPermToRole(code, roleKey, permKey)).db;
    var row := LinkRow(w.db, code, roleKey, permKey);
    AppIsUnique(w, code, appId);
    assert row in db.rolePerms && db.rolePerms == w.db.rolePerms + {row};
    assert RolePermRows(db, appId, roleKey) == RolePermRows(w.db, appId, roleKey) + {row};
    if (otherApp, other) != (appId, roleKey) {
      assert RolePermRows(db, otherApp, other) == RolePermRows(w.db, otherApp, other);
    }
  }

  lemma AppIsUnique(w: World, code: string, appId: nat)
    requires Inv(w) && IsApp(w.db, code, appId)
    ensures forall a :: IsApp(w.db, code, a) <==> a == appId
    ensures AppIds(w.db, code) == {appId} && The(AppIds(w.db, code)) == appId
  {
    LookupsUnique(w, code, "");
    assert appId in AppIds(w.db, code) && forall a :: IsApp(w.db, code, a) ==> a in AppIds(w.db, code);
  }

  // ---- for users ----------------------------------------------------------------------------------------

  /** After an unlink a user keeps a permission exactly when it is another one or another role id grants it. */
  lemma UnlinkForUsers(w: World, code: string, roleKey: string, permKey: string, user: string, key: string)
    requires Inv(w)
    ensures key in UserPermKeys(Effect(w, RemovePermFromRole(code, roleKey, permKey)).db, code, user)
       <==> exists c :: c in Chains(w.db, code, user) && w.db.perms[c.1.permId].key == key
                        && (key != permKey || c.1.roleId !in RoleIds(w.db, code, roleKey))
  {
    var db := Effect(w, RemovePermFromRole(code, roleKey, permKey)).db;
    forall c | c in Chains(w.db, code, user)
      ensures c in Chains(db, code, user)
         <==> w.db.perms[c.1.permId].key != permKey || c.1.roleId !in RoleIds(w.db, code, roleKey)
    {
      BindingsAre(w, code, roleKey, permKey, c.1);
      JoinStaysInApp(w, code, user, c);
    }
    assert forall c :: c in Chains(db, code, user) ==> c in Chains(w.db, code, user);
  }

  /** A grant gives the user exactly the role's permissions on top of what the user has. */
  lemma GrantIsPrecise(w: World, code: string, appId: nat, user: string, roleKey: string)
    requires Inv(w) && IsApp(w.db, code, appId) && RoleIds(w.db, code, roleKey) != {}
    ensures var db := Effect(w, Grant(code, user, roleKey)).db;
      UserPermKeys(db, code, user) == UserPermKeys(w.db, code, user) + RolePermKeys(w.db, appId, roleKey)
  {
    var db, row := Effect(w, Grant(code, user, roleKey)).db, GrantRow(w.db, code, user, roleKey);
    AppIsUnique(w, code, appId);
    assert db.userRoles == w.db.userRoles + {row};
    GrantedChains(w, code, appId, user, roleKey);
    forall key ensures key in UserPermKeys(db, code, user) <==>
      key in UserPermKeys(w.db, code, user) + RolePermKeys(w.db, appId, roleKey)
    {
      if key in RolePermKeys(w.db, appId, roleKey) {
        var rp :| rp in RolePermRows(w.db, appId, roleKey) && w.db.perms[rp.permId].key == key;
        assert (row, rp) in Chains(db, code, user);
      }
      if key in UserPermKeys(w.db, code, user) {
        var c :| c in Chains(w.db, code, user) && w.db.perms[c.1.permId].key == key;
        assert c in Chains(db, code, user);
      }
    }
  }

  /** ... and the role, in getUserRoles, if the app is enabled. */
  lemma GrantListsRole(w: World, code: string, appId: nat, user: string, roleKey: string)
    requires Inv(w) && IsApp(w.db, code, appId) && RoleIds(w.db, code, roleKey) != {}
    ensures UserRoleKeys(Effect(w, Grant(code, user, roleKey)).db, code, user)
         == UserRoleKeys(w.db, code, user) + if w.db.apps[appId].status == 1 then {roleKey} else {}
  {
    var db, row := Effect(w, Grant(code, user, roleKey)).db, GrantRow(w.db, code, user, roleKey);
    AppIsUnique(w, code, appId);
    assert db.userRoles == w.db.userRoles + {row};
    assert UserRoleRows(db, code, user) == UserRoleRows(w.db, code, user)
      + if w.db.apps[appId].status == 1 then {row} else {};
  }

  /** The chains a grant adds are those through its row, and their links are the role's. */
  lemma GrantedChains(w: World, code: string, appId: nat, user: string, roleKey: string)
    requires Inv(w) && IsApp(w.db, code, appId) && RoleIds(w.db, code, roleKey) != {}
    ensures var db, row := Effect(w, Grant(code, user, roleKey)).db, GrantRow(w.db, code, user, roleKey);
      && (forall c :: c in Chains(db, code, user) ==>
            c in Chains(w.db, code, user) || (c.0 == row && c.1 in RolePermRows(w.db, appId, roleKey)))
      && (forall rp :: rp in RolePermRows(w.db, appId, roleKey) ==> rp.roleId == row.roleId)
  {
    var row := GrantRow(w.db, code, user, roleKey);
    AppIsUnique(w, code, appId);
    LookupsUnique(w, code, roleKey);
    forall rp | rp in RolePermRows(w.db, appId, roleKey) ensures rp.roleId == row.roleId {
      assert rp.roleId in RoleIds(w.db, code, roleKey);
    }
  }

  // ---- the four role lists are two relations read from both ends -----------------------------------------

  /** getRolePermissions lists a permission for a role exactly when getRolesWithPermission lists the role for it. */
  lemma RolesAndPermissionsMatch(db: DB, appId: nat, roleKey: string, permKey: string)
    ensures permKey in RolePermKeys(db, appId, roleKey) <==> roleKey in GrantingRoleKeys(db, appId, permKey)
  {
    if permKey in RolePermKeys(db, appId, roleKey) {
      var rp :| rp in RolePermRows(db, appId, roleKey) && db.perms[rp.permId].key == permKey;
      assert rp in GrantingRows(db, appId, permKey);
    }
    if roleKey in GrantingRoleKeys(db, appId, permKey) {
      var rp :| rp in GrantingRows(db, appId, permKey) && db.roles[rp.roleId].key == roleKey;
      assert rp in RolePermRows(db, appId, roleKey);
    }
  }

  /** getUserRoles lists a role of an enabled app for a user exactly when getRoleUsers lists the user for it. */
  lemma UsersAndRolesMatch(w: World, code: string, appId: nat, user: string, roleKey: string)
    requires Inv(w) && IsApp(w.db, code, appId) && w.db.apps[appId].status == 1
    ensures roleKey in UserRoleKeys(w.db, code, user)
       <==> exists ur :: ur in RoleUserRows(w.db, appId, roleKey) && ur.userId == user
  {
    AppIsUnique(w, code, appId);
    forall ur | ur in w.db.userRoles && ur.roleId in w.db.roles ensures w.db.roles[ur.roleId].appId == ur.appId {
      assert RowOk(w.born, ur);
    }
    if roleKey in UserRoleKeys(w.db, code, user) {
      var ur :| ur in UserRoleRows(w.db, code, user) && w.db.roles[ur.roleId].key == roleKey;
      assert ur in RoleUserRows(w.db, appId, roleKey);
    }
    if ur :| ur in RoleUserRows(w.db, appId, roleKey) && ur.userId == user {
      assert ur in UserRoleRows(w.db, code, user);
    }
  }
}
