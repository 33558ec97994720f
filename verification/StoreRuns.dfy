/**
 * Any number of DAO calls in progress at once.  No DAO operation opens a transaction, so the unit
 * of interleaving is one SQL statement: a call that needs several is a thread that remembers, in
 * its program counter, what its earlier statements returned.  A run is a list of events; an event
 * that is not enabled changes nothing.  `Abort` is a connection or statement failure at any point.
 */
module StoreRuns {
  import opened Basics
  import opened Tables
  import opened History

  /** What a thread does with the app id that getAppId returned. */
  datatype Job =
    | NewRole(key: string)
    | NewPerm(key: string, name: string)
    | DropRole(key: string)
    | DropPerm(key: string)
    | Rename(key: string, newName: Option<string>)
    | List

  datatype Pc =
    | Idle
    | HaveApp(appId: nat, job: Job)
    | HaveRole(appId: nat, roleId: nat, user: string)
    | LinkRole(roleId: nat, code: string, permKey: string)
    | LinkBoth(roleId: nat, permId: nat)

  datatype Event =
    | CreateApp(name: string, code: string, description: string)
    | SetApp(code: string, patch: Patch)
    | DeleteApp(code: string)
    | Revoke(code: string, user: string, roleKey: string)
    | Unlink(code: string, roleKey: string, permKey: string)
    | FindApp(t: nat, code: string, id: nat, job: Job)
    | RunJob(t: nat)
    | FindRole(t: nat, code: string, roleKey: string, id: nat, user: string)
    | Assign(t: nat)
    | FindLinkRole(t: nat, code: string, roleKey: string, id: nat, permKey: string)
    | FindLinkPerm(t: nat, id: nat)
    | Link(t: nat)
    | Abort(t: nat)

  datatype State = State(w: World, pcs: map<nat, Pc>) {
    function At(t: nat): Pc {
      if t in pcs then pcs[t] else Idle
    }
    function Go(t: nat, pc: Pc): State {
      State(w, pcs[t := pc])
    }
  }

  const START := State(GENESIS, map[])

  function RunOn(w: World, appId: nat, job: Job): World {
    match job
    case NewRole(key) => AddRole(w, appId, key)
    case NewPerm(key, name) => AddPerm(w, appId, key, name)
    case DropRole(key) => w.(db := DeleteRoles(w.db, appId, key))
    case DropPerm(key) => w.(db := DeletePerms(w.db, appId, key))
    case Rename(key, name) => w.(db := RenamePerms(w.db, appId, key, name))
    case List => w
  }

  function Do(s: State, e: Event): State {
    match e
    case CreateApp(name, code, description) => s.(w := AddApp(s.w, name, code, description))
    case SetApp(code, patch) => s.(w := s.w.(db := UpdateApps(s.w.db, code, patch)))
    case DeleteApp(code) => s.(w := s.w.(db := DeleteApps(s.w.db, code)))
    case Revoke(code, user, roleKey) => s.(w := s.w.(db := DeleteAssignments(s.w.db, code, user, roleKey)))
    case Unlink(code, roleKey, permKey) => s.(w := s.w.(db := DeleteBindings(s.w.db, code, roleKey, permKey)))
    case FindApp(t, code, id, job) =>
      if s.At(t).Idle? && id in AppIds(s.w.db, code) then s.Go(t, HaveApp(id, job)) else s
    case RunJob(t) =>
      if s.At(t).HaveApp? then s.Go(t, Idle).(w := RunOn(s.w, s.At(t).appId, s.At(t).job)) else s
    case FindRole(t, code, roleKey, id, user) =>
      if s.At(t).Idle? && id in RoleIds(s.w.db, code, roleKey)
      then s.Go(t, HaveRole(s.w.db.roles[id].appId, id, user)) else s
    case Assign(t) =>
      if s.At(t).HaveRole?
      then s.Go(t, Idle).(w := Put(s.w, InsertUserRole(s.w.db, UserRole(s.At(t).appId, s.At(t).user, s.At(t).roleId))))
      else s
    case FindLinkRole(t, code, roleKey, id, permKey) =>
      if s.At(t).Idle? && id in RoleIds(s.w.db, code, roleKey) then s.Go(t, LinkRole(id, code, permKey)) else s
    case FindLinkPerm(t, id) =>
      if s.At(t).LinkRole? && id in PermIds(s.w.db, s.At(t).code, s.At(t).permKey)
      then s.Go(t, LinkBoth(s.At(t).roleId, id)) else s
    case Link(t) =>
      if s.At(t).LinkBoth?
      then s.Go(t, Idle).(w := Put(s.w, InsertRolePerm(s.w.db, RolePerm(s.At(t).roleId, s.At(t).permId))))
      else s
    case Abort(t) => s.Go(t, Idle)
  }

  function Run(s: State, es: seq<Event>): State
    decreases |es|
  {
    if es == [] then s else Run(Do(s, es[0]), es[1..])
  }

  /** A call that fails after its lookups leaves the tables as they were, and only its own thread has moved. */
  lemma AbortedCallLeavesNoTrace(s: State, t: nat, find: Event, permId: nat)
    requires find.FindApp? || find.FindRole? || find.FindLinkRole?
    requires find.t == t && s.At(t).Idle?
    ensures var s' := Do(Do(Do(s, find), FindLinkPerm(t, permId)), Abort(t));
      s'.w == s.w && s'.At(t).Idle? && forall u :: u != t ==> s'.At(u) == s.At(u)
  {
  }

  /** listRoles only reads. */
  lemma ListingLeavesNoTrace(s: State, t: nat, code: string, id: nat)
    requires s.At(t).Idle?
    ensures var s' := Do(Do(s, FindApp(t, code, id, List)), RunJob(t));
      s'.w == s.w && s'.At(t).Idle? && forall u :: u != t ==> s'.At(u) == s.At(u)
  {
  }

  // ---- the invariant of every run --------------------------------------------------------

  ghost predicate PcOk(born: Births, pc: Pc) {
    match pc
    case Idle => true
    case HaveApp(appId, _) => appId in born.appCode
    case HaveRole(appId, roleId, user) => RowOk(born, UserRole(appId, user, roleId)) && appId in born.appCode
    case LinkRole(roleId, code, _) =>
      roleId in born.roleApp && born.roleApp[roleId] in born.appCode && born.appCode[born.roleApp[roleId]] == code
    case LinkBoth(roleId, permId) => LinkOk(born, RolePerm(roleId, permId))
  }

  ghost predicate Safe(s: State) {
    Inv(s.w) && forall t :: t in s.pcs ==> PcOk(s.w.born, s.pcs[t])
  }

  /** What a thread remembers stays true while other threads create and delete. */
  lemma Remembered(b: Births, c: Births, pc: Pc)
    requires PcOk(b, pc) && Grows(b, c)
    ensures PcOk(c, pc)
  {
  }

  lemma WorldStep(s: State, w: World)
    requires Safe(s) && Inv(w) && Grows(s.w.born, w.born)
    ensures Safe(s.(w := w))
  {
    forall t | t in s.pcs ensures PcOk(w.born, s.pcs[t]) {
      Remembered(s.w.born, w.born, s.pcs[t]);
    }
  }

  lemma JobKeeps(w: World, appId: nat, job: Job)
    requires Inv(w) && appId in w.born.appCode
    ensures Inv(RunOn(w, appId, job)) && Grows(w.born, RunOn(w, appId, job).born)
  {
    match job
    case NewRole(key) => AddRoleKeeps(w, appId, key);
    case NewPerm(key, name) => AddPermKeeps(w, appId, key, name);
    case DropRole(key) => DeletesKeep(w, "", appId, key, "", "");
    case DropPerm(key) => DeletesKeep(w, "", appId, key, "", "");
    case Rename(key, name) => RenamePermsKeeps(w, appId, key, name);
    case List =>
  }

  /** Single-statement operations. */
  lemma StatementKeepsSafe(s: State, e: Event)
    requires Safe(s)
    requires e.CreateApp? || e.SetApp? || e.DeleteApp? || e.Revoke? || e.Unlink?
    ensures Safe(Do(s, e)) && Grows(s.w.born, Do(s, e).w.born)
  {
    match e
    case CreateApp(name, code, description) =>
      AddAppKeeps(s.w, name, code, description);
      WorldStep(s, AddApp(s.w, name, code, description));
    case SetApp(code, patch) => UpdateAppsKeeps(s.w, code, patch);
    case DeleteApp(code) => DeletesKeep(s.w, code, 0, "", "", "");
    case Revoke(code, user, roleKey) => DeletesKeep(s.w, code, 0, roleKey, user, "");
    case Unlink(code, roleKey, permKey) => DeletesKeep(s.w, code, 0, roleKey, "", permKey);
  }

  /** A lookup: only the thread that ran it learns something. */
  lemma LookupKeepsSafe(s: State, e: Event)
    requires Safe(s)
    requires e.FindApp? || e.FindRole? || e.FindLinkRole? || e.Abort?
    ensures Safe(Do(s, e)) && Do(s, e).w == s.w
  {
    assert PcOk(s.w.born, Do(s, e).At(e.t));
  }

  /** The permission's app is live, hence the newest with its code: not older than the role's app. */
  lemma SecondLookupKeepsSafe(s: State, t: nat, id: nat)
    requires Safe(s)
    ensures Safe(Do(s, FindLinkPerm(t, id))) && Do(s, FindLinkPerm(t, id)).w == s.w
  {
    var pc := s.At(t);
    assert PcOk(s.w.born, pc);
    if pc.LinkRole? && id in PermIds(s.w.db, pc.code, pc.permKey) {
      assert LinkOk(s.w.born, RolePerm(pc.roleId, id));
    }
  }

  /** The last statement of a call that looked an app up. */
  lemma RunJobKeepsSafe(s: State, t: nat)
    requires Safe(s)
    ensures Safe(Do(s, RunJob(t))) && Grows(s.w.born, Do(s, RunJob(t)).w.born)
  {
    var pc, idle := s.At(t), s.Go(t, Idle);
    assert Safe(idle) && PcOk(s.w.born, pc);
    if pc.HaveApp? {
      JobKeeps(s.w, pc.appId, pc.job);
      WorldStep(idle, RunOn(s.w, pc.appId, pc.job));
    }
  }

  /** The insert of assignRoleToUser or addPermissionToRole. */
  lemma InsertKeepsSafe(s: State, e: Event)
    requires Safe(s) && (e.Assign? || e.Link?)
    ensures Safe(Do(s, e)) && Do(s, e).w.born == s.w.born
  {
    var pc := s.At(e.t);
    assert PcOk(s.w.born, pc);
    if e.Assign? && pc.HaveRole? {
      InsertsKeep(s.w, UserRole(pc.appId, pc.user, pc.roleId), RolePerm(0, 0));
    }
    if e.Link? && pc.LinkBoth? {
      InsertsKeep(s.w, UserRole(0, "", 0), RolePerm(pc.roleId, pc.permId));
    }
  }

  lemma StepKeepsSafe(s: State, e: Event)
    requires Safe(s)
    ensures Safe(Do(s, e)) && Grows(s.w.born, Do(s, e).w.born)
  {
    if e.CreateApp? || e.SetApp? || e.DeleteApp? || e.Revoke? || e.Unlink? {
      StatementKeepsSafe(s, e);
    } else if e.RunJob? {
      RunJobKeepsSafe(s, e.t);
    } else if e.Assign? || e.Link? {
      InsertKeepsSafe(s, e);
    } else if e.FindLinkPerm? {
      SecondLookupKeepsSafe(s, e.t, e.id);
    } else {
      LookupKeepsSafe(s, e);
    }
  }

  /** Every reachable state, whatever the interleaving and wherever calls fail, satisfies the invariant. */
  lemma {:induction false} EveryRunIsSafe(s: State, es: seq<Event>)
    requires Safe(s)
    ensures Safe(Run(s, es)) && Grows(s.w.born, Run(s, es).w.born)
    decreases |es|
  {
    if es != [] {
      StepKeepsSafe(s, es[0]);
      EveryRunIsSafe(Do(s, es[0]), es[1..]);
    }
  }

  lemma StartIsSafe()
    ensures Safe(START)
  {
  }

  // ---- app ids are not what a role-permission row agrees on --------------------------------

  /**
   * addPermissionToRole looks the role and the permission up in two statements.  When the app is
   * deleted and created again between them, the row it inserts links ids of two different apps.
   */
  lemma LinkCanSpanTwoApps() returns (es: seq<Event>)
    ensures var w := Run(START, es).w;
      && w.db.rolePerms == {RolePerm(1, 1)}
      && w.born.roleApp == map[1 := 1] && w.born.permApp == map[1 := 2]
  {
    es := SPAN;
    SpanCreatesApp();
    SpanCreatesRole();
    SpanFindsRole();
    SpanRecreatesApp();
    SpanCreatesPerm();
    SpanLinks();
    Follow(SPAN_STATES, SPAN);
  }

  const SPAN: seq<Event> := [
    CreateApp("n", "x", ""), FindApp(0, "x", 1, NewRole("r")), RunJob(0), FindLinkRole(0, "x", "r", 1, "k"),
    DeleteApp("x"), CreateApp("n", "x", ""),
    FindApp(1, "x", 2, NewPerm("k", "p")), RunJob(1), FindLinkPerm(0, 1), Link(0)]

  const SPAN_STATES: seq<State> :=
    var app, roles, perms := App("n", "x", "", ENABLED), map[1 := Role(1, "r")], map[1 := Perm(2, "k", "p")];
    var code1, code2 := map[1 := "x"], map[1 := "x", 2 := "x"];
    var created := World(EMPTY.(apps := map[1 := app], nextApp := 2), Births(code1, map[], map[]));
    var roled := World(DB(map[1 := app], 2, roles, 2, map[], 1, {}, {}), Births(code1, map[1 := 1], map[]));
    var deleted := World(DB(map[], 2, roles, 2, map[], 1, {}, {}), Births(code1, map[1 := 1], map[]));
    var again := World(DB(map[2 := app], 3, roles, 2, map[], 1, {}, {}), Births(code2, map[1 := 1], map[]));
    var permitted := World(DB(map[2 := app], 3, roles, 2, perms, 2, {}, {}), Births(code2, map[1 := 1], map[1 := 2]));
    var linked := permitted.(db := permitted.db.(rolePerms := {RolePerm(1, 1)}));
    var link := LinkRole(1, "x", "k");
    [START,
     State(created, map[]),
     State(created, map[0 := HaveApp(1, NewRole("r"))]),
     State(roled, map[0 := Idle]),
     State(roled, map[0 := link]),
     State(deleted, map[0 := link]),
     State(again, map[0 := link]),
     State(again, map[0 := link, 1 := HaveApp(2, NewPerm("k", "p"))]),
     State(permitted, map[0 := link, 1 := Idle]),
     State(permitted, map[0 := LinkBoth(1, 1), 1 := Idle]),
     State(linked, map[0 := Idle, 1 := Idle])]

  ghost predicate Span(i: nat)
    requires i < 10
  {
    Do(SPAN_STATES[i], SPAN[i]) == SPAN_STATES[i + 1]
  }

  lemma SpanCreatesApp()
    ensures Span(0)
  {
    assert AppIds(SPAN_STATES[0].w.db, "x") == {};
  }

  lemma SpanCreatesRole()
    ensures Span(1) && Span(2)
  {
    assert AppIds(SPAN_STATES[1].w.db, "x") == {1} && RolesOf(SPAN_STATES[2].w.db, 1, "r") == {};
  }

  lemma SpanFindsRole()
    ensures Span(3) && Span(4)
  {
    assert RoleIds(SPAN_STATES[3].w.db, "x", "r") == {1} && AppIds(SPAN_STATES[4].w.db, "x") == {1};
  }

  lemma SpanRecreatesApp()
    ensures Span(5) && Span(6)
  {
    assert AppIds(SPAN_STATES[5].w.db, "x") == {} && AppIds(SPAN_STATES[6].w.db, "x") == {2};
  }

  lemma SpanCreatesPerm()
    ensures Span(7)
  {
    assert PermsOf(SPAN_STATES[7].w.db, 2, "k") == {};
  }

  lemma SpanLinks()
    ensures Span(8) && Span(9)
  {
    assert PermIds(SPAN_STATES[8].w.db, "x", "k") == {1};
  }

  lemma {:induction false} RunAppend(s: State, es: seq<Event>, fs: seq<Event>)
    ensures Run(s, es + fs) == Run(Run(s, es), fs)
    decreases |es|
  {
    if es == [] {
      assert es + fs == fs;
    } else {
      RunAppend(Do(s, es[0]), es[1..], fs);
      assert (es + fs)[1..] == es[1..] + fs;
    }
  }

  /** A list of states, each the last one's successor, is the run. */
  lemma {:induction false} Follow(states: seq<State>, es: seq<Event>)
    requires |states| == |es| + 1
    requires forall i :: 0 <= i < |es| ==> Do(states[i], es[i]) == states[i + 1]
    ensures Run(states[0], es) == states[|es|]
  {
    if es != [] {
      assert forall i :: 0 <= i < |es| - 1 ==> states[1..][i] == states[i + 1] && es[1..][i] == es[i + 1];
      Follow(states[1..], es[1..]);
    }
  }

  /** The inserted row links ids of one app exactly when the role's app is still there at the second lookup. */
  lemma LinkStaysInOneAppIff(s: State, t: nat, permId: nat)
    requires Safe(s) && s.At(t).LinkRole?
    requires permId in PermIds(s.w.db, s.At(t).code, s.At(t).permKey)
    ensures s.w.born.roleApp[s.At(t).roleId] == s.w.born.permApp[permId]
       <==> s.w.born.roleApp[s.At(t).roleId] in s.w.db.apps
  {
    var a, b := s.w.born.roleApp[s.At(t).roleId], s.w.born.permApp[permId];
    assert b in s.w.db.apps && s.w.born.appCode[a] == s.w.born.appCode[b];
    if a in s.w.db.apps {
      assert a <= b && b <= a;
    }
  }

  // ---- ids are never revived ---------------------------------------------------------------

  /** No row and no thread in mid-operation refers to the id. */
  ghost predicate PermUnused(s: State, p: nat) {
    && (forall rp :: rp in s.w.db.rolePerms ==> rp.permId != p)
    && (forall t :: t in s.pcs && s.pcs[t].LinkBoth? ==> s.pcs[t].permId != p)
  }

  ghost predicate RoleUnused(s: State, r: nat) {
    && (forall rp :: rp in s.w.db.rolePerms ==> rp.roleId != r)
    && (forall ur :: ur in s.w.db.userRoles ==> ur.roleId != r)
    && (forall t ::
          t in s.pcs && (s.pcs[t].LinkBoth? || s.pcs[t].LinkRole? || s.pcs[t].HaveRole?) ==> s.pcs[t].roleId != r)
  }

  ghost predicate AppUnused(s: State, a: nat) {
    && (forall ur :: ur in s.w.db.userRoles ==> ur.appId != a)
    && (forall t :: t in s.pcs && s.pcs[t].HaveRole? ==> s.pcs[t].appId != a)
  }

  /** An id not handed out yet is unused, orphan rows and half-finished calls included. */
  lemma FreshIdsUnused(s: State, n: nat)
    requires Safe(s)
    ensures s.w.db.nextPerm <= n ==> PermUnused(s, n)
    ensures s.w.db.nextRole <= n ==> RoleUnused(s, n)
    ensures s.w.db.nextApp <= n ==> AppUnused(s, n)
  {
    forall t | t in s.pcs ensures PcOk(s.w.born, s.pcs[t]) {}
  }

  lemma PermUnusedStep(s: State, e: Event, n: nat)
    requires PermUnused(s, n) && !(e.FindLinkPerm? && e.id == n)
    ensures PermUnused(Do(s, e), n)
  {
    if e.RunJob? && s.At(e.t).HaveApp? {
      assert RunOn(s.w, s.At(e.t).appId, s.At(e.t).job).db.rolePerms == s.w.db.rolePerms;
    }
  }

  lemma RoleUnusedStep(s: State, e: Event, n: nat)
    requires RoleUnused(s, n) && !((e.FindRole? || e.FindLinkRole?) && e.id == n)
    ensures RoleUnused(Do(s, e), n)
  {
    if e.RunJob? && s.At(e.t).HaveApp? {
      assert RunOn(s.w, s.At(e.t).appId, s.At(e.t).job).db.rolePerms == s.w.db.rolePerms;
      assert RunOn(s.w, s.At(e.t).appId, s.At(e.t).job).db.userRoles == s.w.db.userRoles;
    }
  }

  /**
   * However rows were orphaned before, an id enters a link table only after a lookup that returned
   * it: from a state where the id is unused, a run without such a lookup leaves it unused.
   */
  lemma {:induction false} NeverRevived(s: State, es: seq<Event>, n: nat)
    ensures PermUnused(s, n) && (forall i :: 0 <= i < |es| ==> !(es[i].FindLinkPerm? && es[i].id == n)) ==>
      PermUnused(Run(s, es), n)
    ensures RoleUnused(s, n) && (forall i :: 0 <= i < |es| ==>
        !((es[i].FindRole? || es[i].FindLinkRole?) && es[i].id == n)) ==>
      RoleUnused(Run(s, es), n)
    decreases |es|
  {
    if es != [] {
      if PermUnused(s, n) && !(es[0].FindLinkPerm? && es[0].id == n) { PermUnusedStep(s, es[0], n); }
      if RoleUnused(s, n) && !((es[0].FindRole? || es[0].FindLinkRole?) && es[0].id == n) {
        RoleUnusedStep(s, es[0], n);
      }
      NeverRevived(Do(s, es[0]), es[1..], n);
      assert forall i :: 0 <= i < |es[1..]| ==> es[1..][i] == es[i + 1];
    }
  }
}
