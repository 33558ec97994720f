/** listRoles: one LEFT JOIN with GROUP_CONCAT in place of one query per role. */
module Listing {
  import opened Basics
  import opened Tables
  import opened History
  import opened Decisions

  /** A row of sys_roles LEFT JOIN sys_role_permissions LEFT JOIN sys_permissions; None is NULL. */
  datatype JoinRow = JoinRow(link: Option<RolePerm>, permKey: Option<string>)

  function Links(db: DB, roleId: nat): set<RolePerm> {
    set rp | rp in db.rolePerms && rp.roleId == roleId
  }

  function KeyOf(db: DB, rp: RolePerm): Option<string> {
    if rp.permId in db.perms then Some(db.perms[rp.permId].key) else None
  }

  function LeftJoin(db: DB, roleId: nat): set<JoinRow> {
    if Links(db, roleId) == {} then {JoinRow(None, None)}
    else set rp | rp in Links(db, roleId) :: JoinRow(Some(rp), KeyOf(db, rp))
  }

  /** Every role has a row, one for each link, and NULLs throughout exactly when it has none. */
  lemma LeftJoinKeepsRole(db: DB, roleId: nat)
    ensures LeftJoin(db, roleId) != {}
    ensures JoinRow(None, None) in LeftJoin(db, roleId) <==> forall rp :: rp in db.rolePerms ==> rp.roleId != roleId
    ensures forall rp :: rp in db.rolePerms && rp.roleId == roleId ==>
      JoinRow(Some(rp), KeyOf(db, rp)) in LeftJoin(db, roleId)
  {
    if Links(db, roleId) != {} {
      var rp :| rp in Links(db, roleId);
      assert JoinRow(Some(rp), KeyOf(db, rp)) in LeftJoin(db, roleId);
    }
    forall rp | rp in db.rolePerms && rp.roleId == roleId ensures rp in Links(db, roleId) {}
  }

  /** What GROUP_CONCAT concatenates: the non-NULL keys, in row order. */
  function NonNull(rows: seq<JoinRow>): seq<string> {
    if rows == [] then []
    else (if rows[0].permKey.Some? then [rows[0].permKey.value] else []) + NonNull(rows[1..])
  }

  lemma {:induction false} NonNullMembers(rows: seq<JoinRow>, key: string)
    ensures key in NonNull(rows) <==> exists i :: 0 <= i < |rows| && rows[i].permKey == Some(key)
  {
    if rows != [] {
      NonNullMembers(rows[1..], key);
      assert forall i :: 1 <= i < |rows| ==> rows[1..][i - 1] == rows[i];
      if key in NonNull(rows[1..]) {
        var j :| 0 <= j < |rows[1..]| && rows[1..][j].permKey == Some(key);
        assert rows[j + 1].permKey == Some(key);
      }
    }
  }

  ghost predicate KeysDiffer(rows: seq<JoinRow>) {
    forall i, j :: 0 <= i < j < |rows| && rows[i].permKey.Some? ==> rows[i].permKey != rows[j].permKey
  }

  /** The concatenation repeats a key exactly when two of the rows carry it. */
  lemma {:induction false} NonNullDistinctIff(rows: seq<JoinRow>)
    ensures Distinct(NonNull(rows)) <==> KeysDiffer(rows)
  {
    if rows != [] {
      var rest := rows[1..];
      NonNullDistinctIff(rest);
      KeysDifferCons(rows);
      if rows[0].permKey.Some? {
        var key := rows[0].permKey.value;
        NonNullMembers(rest, key);
        DistinctCons(key, NonNull(rest));
        assert key in NonNull(rest) <==> !Unlike(rows[0], rest);
        assert NonNull(rows) == [key] + NonNull(rest);
      } else {
        assert NonNull(rows) == NonNull(rest);
      }
    }
  }

  ghost predicate Unlike(row: JoinRow, rows: seq<JoinRow>) {
    row.permKey.Some? ==> forall j :: 0 <= j < |rows| ==> rows[j].permKey != row.permKey
  }

  lemma KeysDifferCons(rows: seq<JoinRow>)
    requires rows != []
    ensures KeysDiffer(rows) <==> KeysDiffer(rows[1..]) && Unlike(rows[0], rows[1..])
  {
    var rest := rows[1..];
    assert forall i :: 0 <= i < |rest| ==> rest[i] == rows[i + 1];
    if KeysDiffer(rows) {
      forall i, j | 0 <= i < j < |rest| && rest[i].permKey.Some? ensures rest[i].permKey != rest[j].permKey {
        assert rows[i + 1].permKey != rows[j + 1].permKey;
      }
    } else {
      var i, j :| 0 <= i < j < |rows| && rows[i].permKey.Some? && rows[i].permKey == rows[j].permKey;
      assert rest[j - 1] == rows[j] && (i > 0 ==> rest[i - 1] == rows[i]);
    }
  }

  lemma DistinctCons(key: string, parts: seq<string>)
    ensures Distinct([key] + parts) <==> key !in parts && Distinct(parts)
  {
    var all := [key] + parts;
    assert forall i :: 0 <= i < |parts| ==> all[i + 1] == parts[i];
    if Distinct(all) {
      forall j | 0 <= j < |parts| ensures parts[j] != key {
        assert all[0] != all[j + 1];
      }
      forall i, j | 0 <= i < j < |parts| ensures parts[i] != parts[j] {
        assert all[i + 1] != all[j + 1];
      }
    }
    if key !in parts && Distinct(parts) {
      forall i, j | 0 <= i < j < |all| ensures all[i] != all[j] {
        assert all[j] == parts[j - 1];
      }
    }
  }

  function RolePermKeys(db: DB, appId: nat, roleKey: string): set<string> {
    set rp | rp in RolePermRows(db, appId, roleKey) :: db.perms[rp.permId].key
  }

  /** Two links of the role lead to live permissions with one key. */
  ghost predicate LinkedTwice(db: DB, roleId: nat) {
    exists rp, rq :: rp in Links(db, roleId) && rq in Links(db, roleId) && SameKeyTwice(db, rp, rq)
  }

  predicate SameKeyTwice(db: DB, rp: RolePerm, rq: RolePerm) {
    rp != rq && KeyOf(db, rp).Some? && KeyOf(db, rp) == KeyOf(db, rq)
  }

  /** A row with a key is the row of a link, and every link has a row. */
  lemma RowOfLink(db: DB, roleId: nat, rows: seq<JoinRow>)
    requires Enumerates(rows, LeftJoin(db, roleId))
    ensures forall i :: 0 <= i < |rows| && rows[i].permKey.Some? ==>
      rows[i].link.Some? && rows[i].link.value in Links(db, roleId) && rows[i].permKey == KeyOf(db, rows[i].link.value)
    ensures forall rp :: rp in Links(db, roleId) ==> JoinRow(Some(rp), KeyOf(db, rp)) in rows
  {
    forall i | 0 <= i < |rows| ensures rows[i] in LeftJoin(db, roleId) {
      assert rows[i] in ToSet(rows);
    }
    forall rp | rp in Links(db, roleId) ensures JoinRow(Some(rp), KeyOf(db, rp)) in rows {
      assert JoinRow(Some(rp), KeyOf(db, rp)) in ToSet(rows);
    }
  }

  /** In any state at all, the concatenation repeats a key exactly when the role is linked twice to it. */
  lemma RepeatsIffLinkedTwice(db: DB, roleId: nat, rows: seq<JoinRow>)
    requires Enumerates(rows, LeftJoin(db, roleId))
    ensures Distinct(NonNull(rows)) <==> !LinkedTwice(db, roleId)
  {
    RowOfLink(db, roleId, rows);
    NonNullDistinctIff(rows);
    if LinkedTwice(db, roleId) {
      var rp, rq :| rp in Links(db, roleId) && rq in Links(db, roleId) && SameKeyTwice(db, rp, rq);
      var i :| 0 <= i < |rows| && rows[i] == JoinRow(Some(rp), KeyOf(db, rp));
      var j :| 0 <= j < |rows| && rows[j] == JoinRow(Some(rq), KeyOf(db, rq));
      assert i != j;
    }
    forall i, j | 0 <= i < j < |rows| && rows[i].permKey.Some? && rows[i].permKey == rows[j].permKey
      ensures LinkedTwice(db, roleId)
    {
      assert rows[i] != rows[j];
      assert SameKeyTwice(db, rows[i].link.value, rows[j].link.value);
    }
  }

  /** It never is while the role's app is there: both permissions are that app's, and keys are unique in it. */
  lemma LiveAppLinksOnce(w: World, roleId: nat)
    requires Inv(w) && roleId in w.db.roles && w.db.roles[roleId].appId in w.db.apps
    ensures !LinkedTwice(w.db, roleId)
  {
    forall rp, rq | rp in Links(w.db, roleId) && rq in Links(w.db, roleId) ensures !SameKeyTwice(w.db, rp, rq) {
      if KeyOf(w.db, rp).Some? && KeyOf(w.db, rq).Some? {
        LiveLinkInApp(w, rp);
        LiveLinkInApp(w, rq);
        assert SameSlot(w.db.perms[rp.permId], w.db.perms[rq.permId]) ==> rp == rq;
      }
    }
  }

  /**
   * The single-query form yields getRolePermissions' keys, rows of deleted permissions having
   * disappeared as NULLs, and without repetition unless the role is linked twice.
   */
  lemma ConcatRefinesPerRoleQuery(w: World, roleId: nat, rows: seq<JoinRow>)
    requires Inv(w) && roleId in w.db.roles
    requires Enumerates(rows, LeftJoin(w.db, roleId))
    ensures ToSet(NonNull(rows)) == RolePermKeys(w.db, w.db.roles[roleId].appId, w.db.roles[roleId].key)
    ensures Distinct(NonNull(rows)) <==> !LinkedTwice(w.db, roleId)
    ensures w.db.roles[roleId].appId in w.db.apps ==> Distinct(NonNull(rows))
  {
    var db, role := w.db, w.db.roles[roleId];
    RepeatsIffLinkedTwice(db, roleId, rows);
    if role.appId in db.apps { LiveAppLinksOnce(w, roleId); }
    RowOfLink(db, roleId, rows);
    assert forall rp ::
      rp in RolePermRows(db, role.appId, role.key) <==> rp in Links(db, roleId) && KeyOf(db, rp).Some?;
    forall key ensures key in NonNull(rows) <==> key in RolePermKeys(db, role.appId, role.key) {
      NonNullMembers(rows, key);
      if key in RolePermKeys(db, role.appId, role.key) {
        var rp :| rp in RolePermRows(db, role.appId, role.key) && db.perms[rp.permId].key == key;
        assert JoinRow(Some(rp), KeyOf(db, rp)) in rows;
      }
    }
  }

  /** A live role of a live app is linked, among live permissions, only to its own app's. */
  lemma LiveLinkInApp(w: World, rp: RolePerm)
    requires Inv(w) && rp in w.db.rolePerms && rp.roleId in w.db.roles && rp.permId in w.db.perms
    requires w.db.roles[rp.roleId].appId in w.db.apps
    ensures w.db.perms[rp.permId].appId == w.db.roles[rp.roleId].appId
  {
    assert LinkOk(w.born, rp);
    assert w.born.permApp[rp.permId] <= w.born.roleApp[rp.roleId];
  }

  // ---- the per-role and per-permission lists of a live app ---------------------------------------------

  /** getRolesWithPermission meets no role key twice. */
  lemma GrantingRolesDiffer(w: World, appId: nat, permKey: string, x: RolePerm, y: RolePerm)
    requires Inv(w) && appId in w.db.apps
    requires x in GrantingRows(w.db, appId, permKey) && y in GrantingRows(w.db, appId, permKey)
    requires w.db.roles[x.roleId].key == w.db.roles[y.roleId].key
    ensures x == y
  {
    assert w.db.roles[x.roleId] == w.db.roles[y.roleId];
    LiveLinkInApp(w, x);
    LiveLinkInApp(w, y);
    assert SameSlot(w.db.perms[x.permId], w.db.perms[y.permId]);
  }

  /** getRolePermissions meets no permission key twice. */
  lemma RolePermsDiffer(w: World, appId: nat, roleKey: string, x: RolePerm, y: RolePerm)
    requires Inv(w) && appId in w.db.apps
    requires x in RolePermRows(w.db, appId, roleKey) && y in RolePermRows(w.db, appId, roleKey)
    requires w.db.perms[x.permId].key == w.db.perms[y.permId].key
    ensures x == y
  {
    assert w.db.roles[x.roleId] == w.db.roles[y.roleId];
    LiveLinkInApp(w, x);
    LiveLinkInApp(w, y);
    assert SameSlot(w.db.perms[x.permId], w.db.perms[y.permId]);
  }
}
