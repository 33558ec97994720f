/**
 * listRoles reads the app id in one statement and the roles in the next.  When the app is deleted and
 * created again in between, the roles it lists are ones left behind by a deleted app, and one of them
 * can have become linked to two permissions with one key.
 */
module LeftBehind {
  import opened Basics
  import opened Tables
  import opened History
  import opened StoreRuns
  import opened Listing
  import opened Text

  /** An app with a role and a permission, linked. */
  const SETUP: seq<Event> := [
    CreateApp("n", "x", ""), FindApp(0, "x", 1, NewRole("r")), RunJob(0),
    FindApp(0, "x", 1, NewPerm("k", "p")), RunJob(0),
    FindLinkRole(0, "x", "r", 1, "k"), FindLinkPerm(0, 1), Link(0)]

  /** A second link call and a listRoles call begin, the app is replaced, and the link call ends. */
  const RACE: seq<Event> := [
    FindLinkRole(0, "x", "r", 1, "k"), FindApp(1, "x", 1, List),
    DeleteApp("x"), CreateApp("n", "x", ""), FindApp(2, "x", 2, NewPerm("k", "p")), RunJob(2),
    FindLinkPerm(0, 2), Link(0)]

  // ---- the tables along the way ----------------------------------------------------------------------

  const APP := App("n", "x", "", ENABLED)
  const ROLES := map[1 := Role(1, "r")]
  const PERM := map[1 := Perm(1, "k", "p")]
  const PERMS := map[1 := Perm(1, "k", "p"), 2 := Perm(2, "k", "p")]

  /** With app 1, its role and its permission. */
  const FIRST := Births(map[1 := "x"], map[1 := 1], map[1 := 1])

  const CREATED := World(DB(map[1 := APP], 2, map[], 1, map[], 1, {}, {}), Births(map[1 := "x"], map[], map[]))
  const ROLED := World(DB(map[1 := APP], 2, ROLES, 2, map[], 1, {}, {}), Births(map[1 := "x"], map[1 := 1], map[]))
  const PERMITTED := World(DB(map[1 := APP], 2, ROLES, 2, PERM, 2, {}, {}), FIRST)
  const LINKED := PERMITTED.(db := PERMITTED.db.(rolePerms := {RolePerm(1, 1)}))
  const DELETED := LINKED.(db := LINKED.db.(apps := map[]))
  const AGAIN := World(DB(map[2 := APP], 3, ROLES, 2, PERM, 2, {}, {RolePerm(1, 1)}),
                       FIRST.(appCode := map[1 := "x", 2 := "x"]))
  const PERMITTED_AGAIN := World(DB(map[2 := APP], 3, ROLES, 2, PERMS, 3, {}, {RolePerm(1, 1)}),
                                 Births(map[1 := "x", 2 := "x"], map[1 := 1], map[1 := 1, 2 := 2]))
  const LEFT := PERMITTED_AGAIN.(db := PERMITTED_AGAIN.db.(rolePerms := {RolePerm(1, 1), RolePerm(1, 2)}))

  const LINKING := LinkRole(1, "x", "k")
  const LISTING := HaveApp(1, List)

  const READY := State(LINKED, map[0 := Idle])

  const SETTING_UP: seq<State> := [
    START,
    State(CREATED, map[]),
    State(CREATED, map[0 := HaveApp(1, NewRole("r"))]),
    State(ROLED, map[0 := Idle]),
    State(ROLED, map[0 := HaveApp(1, NewPerm("k", "p"))]),
    State(PERMITTED, map[0 := Idle]),
    State(PERMITTED, map[0 := LINKING]),
    State(PERMITTED, map[0 := LinkBoth(1, 1)]),
    READY]

  const RACING: seq<State> := [
    READY,
    State(LINKED, map[0 := LINKING]),
    State(LINKED, map[0 := LINKING, 1 := LISTING]),
    State(DELETED, map[0 := LINKING, 1 := LISTING]),
    State(AGAIN, map[0 := LINKING, 1 := LISTING]),
    State(AGAIN, map[0 := LINKING, 1 := LISTING, 2 := HaveApp(2, NewPerm("k", "p"))]),
    State(PERMITTED_AGAIN, map[0 := LINKING, 1 := LISTING, 2 := Idle]),
    State(PERMITTED_AGAIN, map[0 := LinkBoth(1, 2), 1 := LISTING, 2 := Idle]),
    State(LEFT, map[0 := Idle, 1 := LISTING, 2 := Idle])]

  ghost predicate SetUp(i: nat)
    requires i < 8
  {
    Do(SETTING_UP[i], SETUP[i]) == SETTING_UP[i + 1]
  }

  ghost predicate Raced(i: nat)
    requires i < 8
  {
    Do(RACING[i], RACE[i]) == RACING[i + 1]
  }

  lemma AppAppears()
    ensures SetUp(0)
  {
    assert AppIds(EMPTY, "x") == {};
  }

  lemma RoleAppears()
    ensures SetUp(1) && SetUp(2)
  {
    assert AppIds(CREATED.db, "x") == {1} && RolesOf(CREATED.db, 1, "r") == {};
  }

  lemma PermAppears()
    ensures SetUp(3) && SetUp(4)
  {
    assert AppIds(ROLED.db, "x") == {1} && PermsOf(ROLED.db, 1, "k") == {};
  }

  lemma LinkAppears()
    ensures SetUp(5) && SetUp(6) && SetUp(7)
  {
    assert RoleIds(PERMITTED.db, "x", "r") == {1} && PermIds(PERMITTED.db, "x", "k") == {1};
  }

  lemma CallsBegin()
    ensures Raced(0) && Raced(1)
  {
    assert RoleIds(LINKED.db, "x", "r") == {1} && AppIds(LINKED.db, "x") == {1};
  }

  lemma AppIsReplaced()
    ensures Raced(2) && Raced(3)
  {
    assert AppIds(LINKED.db, "x") == {1} && AppIds(DELETED.db, "x") == {};
  }

  lemma AppIsFoundAgain()
    ensures Raced(4)
  {
    assert AppIds(AGAIN.db, "x") == {2};
  }

  lemma PermAppearsAgain()
    ensures Raced(5)
  {
    assert PermsOf(AGAIN.db, 2, "k") == {};
  }

  lemma LinkLooksUp()
    ensures Raced(6)
  {
    assert PermIds(PERMITTED_AGAIN.db, "x", "k") == {2};
  }

  lemma LinkEnds()
    ensures Raced(7)
  {
  }

  /** In what order the rows come does not matter: both carry the key. */
  lemma ListsTwice(rows: seq<JoinRow>)
    requires Enumerates(rows, LeftJoin(LEFT.db, 1))
    ensures Split(Join(NonNull(rows))) == ["k", "k"]
  {
    var a, b := JoinRow(Some(RolePerm(1, 1)), Some("k")), JoinRow(Some(RolePerm(1, 2)), Some("k"));
    assert Links(LEFT.db, 1) == {RolePerm(1, 1), RolePerm(1, 2)};
    assert KeyOf(LEFT.db, RolePerm(1, 1)) == Some("k") && KeyOf(LEFT.db, RolePerm(1, 2)) == Some("k");
    assert LeftJoin(LEFT.db, 1) == {a, b};
    DistinctLength(rows);
    assert |rows| == 2;
    forall i | 0 <= i < 2 ensures rows[i].permKey == Some("k") {
      assert rows[i] in ToSet(rows);
    }
    assert rows[1..] == [rows[1]] && [rows[1]][1..] == [];
    assert NonNull([rows[1]]) == ["k"];
    RoundTripIff(["k", "k"]);
  }

  lemma SetupRuns()
    ensures Run(START, SETUP) == READY
  {
    AppAppears();
    RoleAppears();
    PermAppears();
    LinkAppears();
    Follow(SETTING_UP, SETUP);
  }

  lemma RaceRuns()
    ensures Run(READY, RACE) == State(LEFT, map[0 := Idle, 1 := LISTING, 2 := Idle])
  {
    CallsBegin();
    AppIsReplaced();
    AppIsFoundAgain();
    PermAppearsAgain();
    LinkLooksUp();
    LinkEnds();
    Follow(RACING, RACE);
  }

  /**
   * A run from empty tables after which a listRoles call, whose getAppId returned app 1, is about to read
   * that app's roles, and will answer that role 1 has the permission "k" twice.
   */
  lemma ListRolesCanRepeatAKey() returns (es: seq<Event>)
    ensures var s := Run(START, es);
      && s.At(1) == HaveApp(1, List)
      && 1 in s.w.db.roles && s.w.db.roles[1].appId == 1
      && forall rows :: Enumerates(rows, LeftJoin(s.w.db, 1)) ==> Split(Join(NonNull(rows))) == ["k", "k"]
  {
    es := SETUP + RACE;
    SetupRuns();
    RaceRuns();
    RunAppend(START, SETUP, RACE);
    forall rows | Enumerates(rows, LeftJoin(LEFT.db, 1)) ensures Split(Join(NonNull(rows))) == ["k", "k"] {
      ListsTwice(rows);
    }
  }
}
