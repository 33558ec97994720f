/**
 * The permission cache when requests do not overlap: it never disagrees with the database, except
 * after the two operations that change the join without invalidating anything.
 */
module Coherence {
  import opened Tables
  import opened History
  import opened Decisions
  import opened Commands
  import opened Text
  import opened TtlCache

  type PermCache = Entries<set<string>>

  predicate Live(m: PermCache, app: string, user: string, now: int) {
    CacheKey(app, user) in m && now <= m[CacheKey(app, user)].expireAt
  }

  /** Every unexpired entry of a ':'-free app code is what getUserPermissions would load now. */
  ghost predicate Coherent(db: DB, m: PermCache, now: int) {
    forall app, user :: Free(COLON, app) && Live(m, app, user, now) ==>
      m[CacheKey(app, user)].value == UserPermKeys(db, app, user)
  }

  /** What each admin handler removes from the cache before it writes. */
  function Invalidated(m: PermCache, c: Command): PermCache {
    match c
    case Grant(code, user, _) => m - {CacheKey(code, user)}
    case Revoke(code, user, _) => m - {CacheKey(code, user)}
    case AddPermToRole(code, _, _) => WithoutPrefix(m, AppPrefix(code))
    case RemovePermFromRole(code, _, _) => WithoutPrefix(m, AppPrefix(code))
    case _ => m
  }

  /** The users whose entries that removes. */
  predicate Covers(c: Command, app: string, user: string) {
    match c
    case Grant(code, u, _) => app == code && user == u
    case Revoke(code, u, _) => app == code && user == u
    case AddPermToRole(code, _, _) => app == code
    case RemovePermFromRole(code, _, _) => app == code
    case _ => false
  }

  lemma CoveredIsRemoved(m: PermCache, c: Command, app: string, user: string)
    requires Covers(c, app, user)
    ensures CacheKey(app, user) !in Invalidated(m, c)
  {
    assert CacheKey(app, user)[..|app| + 1] == AppPrefix(app);
  }

  // ---- the writes change no join they do not cover ---------------------------------------------------

  lemma LinkWritesStayInApp(w: World, c: Command, app: string, user: string)
    requires Inv(w) && (c.AddPermToRole? || c.RemovePermFromRole?) && app != c.code
    ensures UserPermKeys(Effect(w, c).db, app, user) == UserPermKeys(w.db, app, user)
  {
    var db := Effect(w, c).db;
    // A user-role row through the role carries the role's app, so its user is asked about under that code.
    forall ur, rp: RolePerm | ur in w.db.userRoles && ur.roleId == rp.roleId && IsApp(w.db, app, ur.appId)
      ensures rp in db.rolePerms <==> rp in w.db.rolePerms
    {
      assert RowOk(w.born, ur);
    }
    assert Chains(db, app, user) == Chains(w.db, app, user);
  }

  lemma GrantStaysWithUser(w: World, c: Command, app: string, user: string)
    requires Inv(w) && c.Grant? && (app, user) != (c.code, c.user)
    ensures UserPermKeys(Effect(w, c).db, app, user) == UserPermKeys(w.db, app, user)
  {
    assert forall ur :: ur in Effect(w, c).db.userRoles && ur !in w.db.userRoles ==>
      !(IsApp(w.db, app, ur.appId) && ur.userId == user);
    assert Chains(Effect(w, c).db, app, user) == Chains(w.db, app, user);
  }

  lemma RevokeStaysWithUser(w: World, c: Command, app: string, user: string)
    requires Inv(w) && c.Revoke? && (app, user) != (c.code, c.user)
    ensures UserPermKeys(Effect(w, c).db, app, user) == UserPermKeys(w.db, app, user)
  {
    assert Chains(Effect(w, c).db, app, user) == Chains(w.db, app, user);
  }

  /** A created app's fresh id is on no user-role row, and updates keep codes. */
  lemma AppWritesAreInvisible(w: World, c: Command, app: string, user: string)
    requires Inv(w) && (c.CreateApp? || c.UpdateApp?)
    ensures UserPermKeys(Effect(w, c).db, app, user) == UserPermKeys(w.db, app, user)
  {
    var db := Effect(w, c).db;
    forall ur | ur in w.db.userRoles ensures IsApp(db, app, ur.appId) <==> IsApp(w.db, app, ur.appId) {
      assert RowOk(w.born, ur);
    }
    assert Chains(db, app, user) == Chains(w.db, app, user);
  }

  /** A created permission's fresh id is on no role-permission row, and renaming keeps keys. */
  lemma PermWritesAreInvisible(w: World, c: Command, app: string, user: string)
    requires Inv(w) && (c.CreatePerm? || c.UpdatePerm?)
    ensures UserPermKeys(Effect(w, c).db, app, user) == UserPermKeys(w.db, app, user)
  {
    var db := Effect(w, c).db;
    forall rp | rp in w.db.rolePerms
      ensures rp.permId in db.perms <==> rp.permId in w.db.perms
      ensures rp.permId in w.db.perms ==> db.perms[rp.permId].key == w.db.perms[rp.permId].key
    {
      assert LinkOk(w.born, rp);
    }
    assert Chains(db, app, user) == Chains(w.db, app, user);
  }

  /** The join never reads sys_roles. */
  lemma RoleWritesAreInvisible(w: World, c: Command, app: string, user: string)
    requires c.CreateRole? || c.DeleteRole? || c.UpdateRole?
    ensures UserPermKeys(Effect(w, c).db, app, user) == UserPermKeys(w.db, app, user)
  {
    assert Chains(Effect(w, c).db, app, user) == Chains(w.db, app, user);
  }

  /** Every admin operation but two keeps the cache coherent. */
  lemma CommandKeepsCoherence(w: World, c: Command, m: PermCache, now: int)
    requires Inv(w) && Coherent(w.db, m, now)
    requires !c.DeletePerm? && !c.DeleteApp?
    ensures Coherent(Effect(w, c).db, Invalidated(m, c), now)
  {
    var m' := Invalidated(m, c);
    forall app, user | Free(COLON, app) && Live(m', app, user, now)
      ensures m'[CacheKey(app, user)].value == UserPermKeys(Effect(w, c).db, app, user)
    {
      if Covers(c, app, user) { CoveredIsRemoved(m, c, app, user); }
      assert Live(m, app, user, now);
      if c.AddPermToRole? || c.RemovePermFromRole? {
        LinkWritesStayInApp(w, c, app, user);
      } else if c.Grant? {
        GrantStaysWithUser(w, c, app, user);
      } else if c.Revoke? {
        RevokeStaysWithUser(w, c, app, user);
      } else if c.CreateApp? || c.UpdateApp? {
        AppWritesAreInvisible(w, c, app, user);
      } else if c.CreatePerm? || c.UpdatePerm? {
        PermWritesAreInvisible(w, c, app, user);
      } else {
        RoleWritesAreInvisible(w, c, app, user);
      }
    }
  }

  // ---- the two exceptions --------------------------------------------------------------------------

  /** Of the live apps' permissions, deletePermission removes the one of that code and key. */
  lemma DeletePermRows(w: World, code: string, key: string, app: string, p: nat)
    requires Inv(w) && p in w.db.perms && w.db.perms[p].appId in AppIds(w.db, app)
    ensures p in Effect(w, DeletePerm(code, key)).db.perms <==> !(app == code && w.db.perms[p].key == key)
  {
    LookupsUnique(w, code, key);
  }

  /** A chain survives it unless it ends in that permission. */
  lemma DeletePermChain(w: World, code: string, key: string, app: string, user: string, c: Chain)
    requires Inv(w) && c in Chains(w.db, app, user)
    ensures c in Chains(Effect(w, DeletePerm(code, key)).db, app, user)
       <==> !(app == code && w.db.perms[c.1.permId].key == key)
  {
    JoinStaysInApp(w, app, user, c);
    DeletePermRows(w, code, key, app, c.1.permId);
  }

  lemma DeletePermJoin(w: World, code: string, key: string, app: string, user: string)
    requires Inv(w)
    ensures UserPermKeys(Effect(w, DeletePerm(code, key)).db, app, user)
         == UserPermKeys(w.db, app, user) - (if app == code then {key} else {})
  {
    var db := Effect(w, DeletePerm(code, key)).db;
    forall c | c in Chains(db, app, user)
      ensures c in Chains(w.db, app, user) && db.perms[c.1.permId] == w.db.perms[c.1.permId]
    {
    }
    forall c | c in Chains(w.db, app, user) { DeletePermChain(w, code, key, app, user, c); }
  }

  /** DeletePermission keeps the cache coherent exactly when no unexpired entry of the app lists the permission. */
  lemma DeletePermCoherentIff(w: World, code: string, key: string, m: PermCache, now: int)
    requires Inv(w) && Coherent(w.db, m, now)
    ensures Coherent(Effect(w, DeletePerm(code, key)).db, m, now)
       <==> (Free(COLON, code) ==> forall user :: Live(m, code, user, now) ==> key !in m[CacheKey(code, user)].value)
  {
    var db := Effect(w, DeletePerm(code, key)).db;
    forall app, user { DeletePermJoin(w, code, key, app, user); }
    if Coherent(db, m, now) && Free(COLON, code) {
      forall user | Live(m, code, user, now) ensures key !in m[CacheKey(code, user)].value {
        assert m[CacheKey(code, user)].value == UserPermKeys(db, code, user);
      }
    }
  }

  lemma DeleteAppJoin(w: World, code: string, app: string, user: string)
    ensures UserPermKeys(Effect(w, DeleteApp(code)).db, app, user)
         == if app == code then {} else UserPermKeys(w.db, app, user)
  {
    var db := Effect(w, DeleteApp(code)).db;
    if app == code {
      assert Chains(db, app, user) == {};
    } else {
      assert forall a :: IsApp(db, app, a) <==> IsApp(w.db, app, a);
      assert Chains(db, app, user) == Chains(w.db, app, user);
    }
  }

  /** DeleteApp keeps the cache coherent exactly when every unexpired entry of the app is empty. */
  lemma DeleteAppCoherentIff(w: World, code: string, m: PermCache, now: int)
    requires Inv(w) && Coherent(w.db, m, now)
    ensures Coherent(Effect(w, DeleteApp(code)).db, m, now)
       <==> (Free(COLON, code) ==> forall user :: Live(m, code, user, now) ==> m[CacheKey(code, user)].value == {})
  {
    var db := Effect(w, DeleteApp(code)).db;
    forall app, user { DeleteAppJoin(w, code, app, user); }
    if Coherent(db, m, now) && Free(COLON, code) {
      forall user | Live(m, code, user, now) ensures m[CacheKey(code, user)].value == {} {
        assert m[CacheKey(code, user)].value == UserPermKeys(db, code, user);
      }
    }
  }

  /** A database and a coherent cache in which user "u" of app "x" holds "k". */
  const HELD := World(
    DB(map[1 := App("n", "x", "", ENABLED)], 2, map[1 := Role(1, "r")], 2, map[1 := Perm(1, "k", "p")], 2,
       {UserRole(1, "u", 1)}, {RolePerm(1, 1)}),
    Births(map[1 := "x"], map[1 := 1], map[1 := 1]))

  lemma HeldCache() returns (m: PermCache)
    ensures Inv(HELD) && Coherent(HELD.db, m, 0) && Live(m, "x", "u", 0) && m[CacheKey("x", "u")].value == {"k"}
  {
    m := map[CacheKey("x", "u") := Entry({"k"}, 60)];
    assert Chains(HELD.db, "x", "u") == {(UserRole(1, "u", 1), RolePerm(1, 1))};
    forall app, user | Free(COLON, app) && Live(m, app, user, 0)
      ensures m[CacheKey(app, user)].value == UserPermKeys(HELD.db, app, user)
    {
      CacheKeyInjective(app, user, "x", "u");
    }
  }

  /** Revoking the role takes the permission away. */
  lemma HeldIsRevoked() returns (after: DB)
    ensures after == Effect(HELD, Revoke("x", "u", "r")).db
    ensures "k" in UserPermKeys(HELD.db, "x", "u") && "k" !in UserPermKeys(after, "x", "u")
  {
    after := DeleteAssignments(HELD.db, "x", "u", "r");
    assert (UserRole(1, "u", 1), RolePerm(1, 1)) in Chains(HELD.db, "x", "u");
    assert Assignments(HELD.db, "x", "u", "r") == {UserRole(1, "u", 1)};
    assert after.userRoles == {};
  }

  lemma DeletesLeaveStaleEntries() returns (m: PermCache)
    ensures Inv(HELD) && Coherent(HELD.db, m, 0)
    ensures !Coherent(Effect(HELD, DeletePerm("x", "k")).db, m, 0)
    ensures !Coherent(Effect(HELD, DeleteApp("x")).db, m, 0)
  {
    m := HeldCache();
    DeletePermCoherentIff(HELD, "x", "k", m, 0);
    DeleteAppCoherentIff(HELD, "x", m, 0);
  }

  // ---- every run of requests that do not overlap ----------------------------------------------------

  /**
   * A Check with a successful load, or a handler run to its end: its write takes effect or, when
   * `works` is false, fails after the invalidation.
   */
  datatype Request =
    | Asking(code: string, user: string, at: int, putAt: int)
    | Managing(c: Command, works: bool, at: int)

  datatype System = System(w: World, m: PermCache, now: int, ttl: int)

  /** The cache after a miss: an expired entry evicted by the Get, then the new entry put. */
  function Refreshed(
    m: PermCache, code: string, user: string, perms: set<string>, now: int, putAt: int, ttl: int): PermCache
  {
    Evicted(m, CacheKey(code, user), now)[CacheKey(code, user) := Entry(perms, putAt + ttl)]
  }

  ghost function Serve(s: System, r: Request): System {
    match r
    case Asking(code, user, at, putAt) =>
      if Lookup(s.m, CacheKey(code, user), at).Some? then s.(now := at)
      else s.(m := Refreshed(s.m, code, user, UserPermKeys(s.w.db, code, user), at, putAt, s.ttl), now := putAt)
    case Managing(c, works, at) =>
      s.(w := if works then Effect(s.w, c) else s.w, m := Invalidated(s.m, c), now := at)
  }

  ghost function ServeAll(s: System, rs: seq<Request>): System
    decreases |rs|
  {
    if rs == [] then s else ServeAll(Serve(s, rs[0]), rs[1..])
  }

  /** The clock does not go back, and Checks name ':'-free app codes. */
  ghost predicate Orderly(now: int, rs: seq<Request>)
    decreases |rs|
  {
    rs != [] ==>
      match rs[0]
      case Asking(code, _, at, putAt) => now <= at <= putAt && Free(COLON, code) && Orderly(putAt, rs[1..])
      case Managing(_, _, at) => now <= at && Orderly(at, rs[1..])
  }

  /** The two operations that write behind the cache's back. */
  predicate Unannounced(r: Request) {
    r.Managing? && (r.c.DeletePerm? || r.c.DeleteApp?)
  }

  lemma LaterStaysCoherent(db: DB, m: PermCache, now: int, later: int)
    requires Coherent(db, m, now) && now <= later
    ensures Coherent(db, m, later)
  {
    forall app, user | Free(COLON, app) && Live(m, app, user, later)
      ensures m[CacheKey(app, user)].value == UserPermKeys(db, app, user)
    {
      assert Live(m, app, user, now);
    }
  }

  lemma FewerEntriesStayCoherent(db: DB, m: PermCache, c: Command, now: int)
    requires Coherent(db, m, now)
    ensures Coherent(db, Invalidated(m, c), now)
  {
    forall app, user | Free(COLON, app) && Live(Invalidated(m, c), app, user, now)
      ensures Invalidated(m, c)[CacheKey(app, user)].value == UserPermKeys(db, app, user)
    {
      assert Live(m, app, user, now);
    }
  }

  /** A miss puts exactly the current keys, under a key only this user has. */
  lemma RefreshStaysCoherent(db: DB, m: PermCache, code: string, user: string, now: int, putAt: int, ttl: int)
    requires Coherent(db, m, now) && Free(COLON, code) && now <= putAt
    ensures Coherent(db, Refreshed(m, code, user, UserPermKeys(db, code, user), now, putAt, ttl), putAt)
  {
    var m' := Refreshed(m, code, user, UserPermKeys(db, code, user), now, putAt, ttl);
    forall app, u | Free(COLON, app) && Live(m', app, u, putAt)
      ensures m'[CacheKey(app, u)].value == UserPermKeys(db, app, u)
    {
      CacheKeyInjective(app, u, code, user);
      if !(app == code && u == user) {
        assert Live(m, app, u, now);
      }
    }
  }

  lemma ServeStaysCoherent(s: System, r: Request)
    requires Inv(s.w) && Coherent(s.w.db, s.m, s.now) && Orderly(s.now, [r])
    requires r.Managing? ==> !r.c.DeletePerm? && !r.c.DeleteApp?
    ensures Inv(Serve(s, r).w) && Coherent(Serve(s, r).w.db, Serve(s, r).m, Serve(s, r).now)
  {
    match r
    case Asking(code, user, at, putAt) =>
      LaterStaysCoherent(s.w.db, s.m, s.now, at);
      RefreshStaysCoherent(s.w.db, s.m, code, user, at, putAt, s.ttl);
    case Managing(c, works, at) =>
      LaterStaysCoherent(s.w.db, s.m, s.now, at);
      EffectKeepsInv(s.w, c);
      CommandKeepsCoherence(s.w, c, s.m, at);
      FewerEntriesStayCoherent(s.w.db, s.m, c, at);
  }

  /** The cache is coherent after every run of non-overlapping requests without those two. */
  lemma {:induction false} EveryRunIsCoherent(s: System, rs: seq<Request>)
    requires Inv(s.w) && Coherent(s.w.db, s.m, s.now) && Orderly(s.now, rs)
    requires forall i :: 0 <= i < |rs| ==> !(rs[i].Managing? && (rs[i].c.DeletePerm? || rs[i].c.DeleteApp?))
    ensures var t := ServeAll(s, rs); Inv(t.w) && Coherent(t.w.db, t.m, t.now)
    decreases |rs|
  {
    if rs != [] {
      assert Orderly(s.now, [rs[0]]) by { assert [rs[0]][1..] == []; }
      ServeStaysCoherent(s, rs[0]);
      assert forall i :: 0 <= i < |rs| - 1 ==> rs[1..][i] == rs[i + 1];
      EveryRunIsCoherent(Serve(s, rs[0]), rs[1..]);
    }
  }

  // ---- runs with the two exceptions --------------------------------------------------------------------

  /** The entries that expire after the horizon. */
  function Fresh(m: PermCache, horizon: int): PermCache {
    map k | k in m && m[k].expireAt > horizon :: m[k]
  }

  /** No entry expires later than a put made now would. */
  ghost predicate Bounded(s: System) {
    forall k :: k in s.m ==> s.m[k].expireAt <= s.now + s.ttl
  }

  /** Entries put after the last of the two exceptions are right, whatever the older ones hold. */
  ghost predicate CoherentBeyond(s: System, horizon: int) {
    Inv(s.w) && Bounded(s) && Coherent(s.w.db, Fresh(s.m, horizon), s.now)
  }

  /** When entries put before the last of the two exceptions have expired; `horizon` if there is none. */
  function Horizon(rs: seq<Request>, ttl: int, horizon: int): int
    decreases |rs|
  {
    if rs == [] then horizon
    else Horizon(rs[1..], ttl, if Unannounced(rs[0]) then rs[0].at + ttl else horizon)
  }

  /** It is a TTL after the last DeletePermission or DeleteApp, and does not move without one. */
  lemma {:induction false} HorizonIsLastDelete(rs: seq<Request>, i: nat, ttl: int, horizon: int)
    requires i <= |rs|
    requires i < |rs| ==> rs[i].Managing? && (rs[i].c.DeletePerm? || rs[i].c.DeleteApp?)
    requires forall j :: 0 <= j < |rs| && (j > i || i == |rs|) && rs[j].Managing? ==>
      !rs[j].c.DeletePerm? && !rs[j].c.DeleteApp?
    ensures Horizon(rs, ttl, horizon) == if i < |rs| then rs[i].at + ttl else horizon
    decreases |rs|
  {
    if rs != [] {
      var rest := rs[1..];
      assert forall j :: 0 <= j < |rest| ==> rest[j] == rs[j + 1];
      var next := if Unannounced(rs[0]) then rs[0].at + ttl else horizon;
      HorizonIsLastDelete(rest, if i == 0 then |rest| else i - 1, ttl, next);
    }
  }

  lemma SubmapStaysCoherent(db: DB, m: PermCache, m': PermCache, now: int)
    requires Coherent(db, m, now) && forall k :: k in m' ==> k in m && m'[k] == m[k]
    ensures Coherent(db, m', now)
  {
    forall app, user | Free(COLON, app) && Live(m', app, user, now)
      ensures m'[CacheKey(app, user)].value == UserPermKeys(db, app, user)
    {
      assert Live(m, app, user, now);
    }
  }

  /** An announced request treats the fresh entries as if there were no others. */
  lemma ServeKeepsFresh(s: System, r: Request, horizon: int)
    requires CoherentBeyond(s, horizon) && Orderly(s.now, [r]) && !Unannounced(r)
    ensures CoherentBeyond(Serve(s, r), horizon)
  {
    var t := s.(m := Fresh(s.m, horizon));
    ServeStaysCoherent(t, r);
    if r.Asking? && Lookup(s.m, CacheKey(r.code, r.user), r.at).Some? {
      LaterStaysCoherent(s.w.db, t.m, s.now, r.at);
    } else {
      FreshIsServed(s, r, horizon);
      SubmapStaysCoherent(Serve(t, r).w.db, Serve(t, r).m, Fresh(Serve(s, r).m, horizon), Serve(s, r).now);
    }
  }

  /** Unless answered by an entry, it leaves no fresh entry that it would not leave with the fresh ones alone. */
  lemma FreshIsServed(s: System, r: Request, horizon: int)
    requires r.Asking? ==> Lookup(s.m, CacheKey(r.code, r.user), r.at).None?
    ensures var m, m' := Serve(s.(m := Fresh(s.m, horizon)), r).m, Fresh(Serve(s, r).m, horizon);
      forall k :: k in m' ==> k in m && m'[k] == m[k]
  {
  }

  /** After one of the two exceptions the horizon moves so far that no present entry is beyond it. */
  lemma ServeMovesHorizon(s: System, r: Request)
    requires Inv(s.w) && Bounded(s) && Orderly(s.now, [r]) && Unannounced(r)
    ensures CoherentBeyond(Serve(s, r), r.at + s.ttl)
  {
    EffectKeepsInv(s.w, r.c);
    assert Fresh(Serve(s, r).m, r.at + s.ttl) == map[];
  }

  lemma PastHorizon(s: System, horizon: int)
    requires Coherent(s.w.db, Fresh(s.m, horizon), s.now) && s.now > horizon
    ensures Coherent(s.w.db, s.m, s.now)
  {
    forall app, user | Free(COLON, app) && Live(s.m, app, user, s.now)
      ensures s.m[CacheKey(app, user)].value == UserPermKeys(s.w.db, app, user)
    {
      assert Live(Fresh(s.m, horizon), app, user, s.now);
    }
  }

  /**
   * In every run of non-overlapping requests, those two included, each unexpired entry put after the
   * last of them equals the current keys; and once a TTL has passed since it, so does every entry.
   */
  lemma {:induction false} CoherenceReturns(s: System, rs: seq<Request>, horizon: int)
    requires CoherentBeyond(s, horizon) && Orderly(s.now, rs)
    ensures var t, h := ServeAll(s, rs), Horizon(rs, s.ttl, horizon);
      t.ttl == s.ttl && CoherentBeyond(t, h) && (t.now > h ==> Coherent(t.w.db, t.m, t.now))
    decreases |rs|
  {
    if rs == [] {
      if s.now > horizon { PastHorizon(s, horizon); }
    } else {
      assert Orderly(s.now, [rs[0]]) by { assert [rs[0]][1..] == []; }
      var next := if Unannounced(rs[0]) then rs[0].at + s.ttl else horizon;
      if Unannounced(rs[0]) { ServeMovesHorizon(s, rs[0]); } else { ServeKeepsFresh(s, rs[0], horizon); }
      assert CoherentBeyond(Serve(s, rs[0]), next);
      CoherenceReturns(Serve(s, rs[0]), rs[1..], next);
    }
  }
}
