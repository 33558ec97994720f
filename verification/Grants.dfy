/** Granting a role to a user and revoking it. */
module Grants {
  import opened Basics
  import opened Tables
  import opened History
  import opened Decisions

  /** The DELETE of removeRoleFromUser removes at most one row, although it does not compare the role's app. */
  lemma RevokeRemovesAtMostOne(w: World, code: string, user: string, roleKey: string)
    requires Inv(w)
    ensures |Assignments(w.db, code, user, roleKey)| <= 1
    ensures forall ur :: ur in Assignments(w.db, code, user, roleKey) ==> ur.roleId in RoleIds(w.db, code, roleKey)
  {
    var rows := Assignments(w.db, code, user, roleKey);
    LookupsUnique(w, code, roleKey);
    forall ur | ur in rows ensures ur.roleId in RoleIds(w.db, code, roleKey) {
      assert RowOk(w.born, ur);
    }
    if rows != {} {
      var x :| x in rows;
      forall y | y in rows ensures y == x {
        assert RowOk(w.born, x) && RowOk(w.born, y);
      }
      assert rows == {x};
    }
  }

  /** Granting an assignment that is absent and revoking it gives the same database back. */
  lemma RevokeUndoesGrant(w: World, code: string, user: string, roleKey: string, roleId: nat)
    requires Inv(w) && roleId in RoleIds(w.db, code, roleKey)
    requires UserRole(w.db.roles[roleId].appId, user, roleId) !in w.db.userRoles
    ensures var granted := InsertUserRole(w.db, UserRole(w.db.roles[roleId].appId, user, roleId));
      granted.Some? && DeleteAssignments(granted.value, code, user, roleKey) == w.db
  {
    var row := UserRole(w.db.roles[roleId].appId, user, roleId);
    var db := InsertUserRole(w.db, row).value;
    LookupsUnique(w, code, roleKey);
    forall ur | ur in Assignments(db, code, user, roleKey) ensures ur == row {
      assert RowOk(w.born, ur);
      assert ur.roleId in RoleIds(w.db, code, roleKey);
    }
    assert row in Assignments(db, code, user, roleKey);
    assert Assignments(db, code, user, roleKey) == {row};
    assert db.userRoles - {row} == w.db.userRoles;
  }

  /** Revoking an assignment that is present and granting it again gives the same database back. */
  lemma GrantUndoesRevoke(w: World, code: string, user: string, roleKey: string, roleId: nat)
    requires Inv(w) && roleId in RoleIds(w.db, code, roleKey)
    requires UserRole(w.db.roles[roleId].appId, user, roleId) in w.db.userRoles
    ensures var row := UserRole(w.db.roles[roleId].appId, user, roleId);
      InsertUserRole(DeleteAssignments(w.db, code, user, roleKey), row) == Some(w.db)
  {
    var row := UserRole(w.db.roles[roleId].appId, user, roleId);
    RevokeRemovesAtMostOne(w, code, user, roleKey);
    LookupsUnique(w, code, roleKey);
    forall ur | ur in Assignments(w.db, code, user, roleKey) ensures ur == row {
      assert RowOk(w.born, ur) && RowOk(w.born, row);
    }
    assert row in Assignments(w.db, code, user, roleKey);
    assert Assignments(w.db, code, user, roleKey) == {row};
    assert w.db.userRoles - {row} + {row} == w.db.userRoles;
  }

  /**
   * After a revoke the user keeps a permission exactly when a link row of another role id grants it,
   * and no other user or app is affected.
   */
  lemma RevokeIsPrecise(
    w: World, code: string, user: string, roleKey: string, otherCode: string, other: string, key: string)
    requires Inv(w)
    ensures var db := DeleteAssignments(w.db, code, user, roleKey);
      && (key in UserPermKeys(db, code, user)
          <==> exists c :: c in Chains(w.db, code, user) && w.db.perms[c.1.permId].key == key
                           && c.1.roleId !in RoleIds(w.db, code, roleKey))
      && ((otherCode, other) != (code, user) ==>
            UserPermKeys(db, otherCode, other) == UserPermKeys(w.db, otherCode, other)
            && UserRoleKeys(db, otherCode, other) == UserRoleKeys(w.db, otherCode, other))
  {
    var db := DeleteAssignments(w.db, code, user, roleKey);
    var gone := Assignments(w.db, code, user, roleKey);
    RevokeRemovesAtMostOne(w, code, user, roleKey);
    assert forall c :: c in Chains(db, code, user) <==> c in Chains(w.db, code, user) && c.0 !in gone;
    forall c | c in Chains(w.db, code, user)
      ensures c.0 in gone <==> c.1.roleId in RoleIds(w.db, code, roleKey)
    {
      assert RowOk(w.born, c.0);
    }
    if (otherCode, other) != (code, user) {
      assert Chains(db, otherCode, other) == Chains(w.db, otherCode, other);
      assert UserRoleRows(db, otherCode, other) == UserRoleRows(w.db, otherCode, other);
    }
  }
}
