/** The RPC handlers: the server's cached Check, the agent's uncached one, BatchCheck, Login and the admin handlers. */
module Services {
  import opened Basics
  import opened Tables
  import opened History
  import opened Decisions
  import opened Commands
  import opened Text
  import opened TtlCache
  import opened Coherence
  import opened Audit
  import opened Dao

  // ---- answers ---------------------------------------------------------------------------------------

  datatype Reason = Granted | Incomplete | NoApp | NoPermission | NoRoles | NotGranted

  datatype CheckResponse = CheckResponse(
    allowed: bool, reason: Reason, fromCache: bool, currentRoles: string, suggestRoles: string)

  datatype Explanation = Explanation(reason: Reason, currentRoles: string, suggestRoles: string)

  /** How the DAO calls of one Check fare. */
  datatype CheckEnv = CheckEnv(decide: Env, app: Env, perm: Env, roles: Env, suggest: Env)

  const NO_ROLES := "无"

  /** A load that reads every row. */
  predicate Loads(db: DB, code: string, user: string, env: Env) {
    Completes(env, false, 1) && |Chains(db, code, user)| <= env.rows
  }

  /** A query of that many rows that is read to its end. */
  predicate ReadsAll(env: Env, nested: bool, rows: nat) {
    Completes(env, nested, 1) && rows <= env.rows
  }

  /**
   * The explanation of a denial.  The reason is the first thing missing, a failed lookup counting as
   * missing; once app and permission are there, `current` and `suggested` are the lists behind its strings.
   */
  ghost predicate Explains(db: DB, code: string, user: string, key: string, env: CheckEnv, x: Explanation,
                           current: seq<string>, suggested: seq<string>)
  {
    && (x.reason.NoApp? <==> !env.app.connected || AppIds(db, code) == {})
    && (x.reason.NoPermission? <==> !x.reason.NoApp? && (!Completes(env.perm, true, 1) || PermIds(db, code, key) == {}))
    && (x.reason.NoApp? || x.reason.NoPermission? ==> x.currentRoles == "" && x.suggestRoles == "")
    && (x.reason.NoRoles? || x.reason.NotGranted? ==>
          && x.currentRoles == (if current == [] then "无" else Join(current)) && x.suggestRoles == Join(suggested)
          && (x.reason.NoRoles? <==> current == [])
          && ListsRoles(db, code, user, key, env, current, suggested))
  }

  /** The user's roles and the roles that grant the permission, each once: all of them, if nothing fails. */
  ghost predicate ListsRoles(db: DB, code: string, user: string, key: string, env: CheckEnv,
                             current: seq<string>, suggested: seq<string>)
  {
    && Distinct(current) && ToSet(current) <= UserRoleKeys(db, code, user)
    && (ReadsAll(env.roles, false, |UserRoleRows(db, code, user)|) ==> ToSet(current) == UserRoleKeys(db, code, user))
    && Distinct(suggested)
    && forall a :: a in AppIds(db, code) ==>
         && ToSet(suggested) <= GrantingRoleKeys(db, a, key)
         && (ReadsAll(env.suggest, true, |GrantingRows(db, a, key)|) ==>
               ToSet(suggested) == GrantingRoleKeys(db, a, key))
  }

  /**
   * A true denial's role lists have nothing in common, even when the explaining queries themselves come
   * back short.
   */
  method Explain(dao: PermissionDAO, code: string, user: string, key: string, env: CheckEnv)
    returns (x: Explanation, ghost current: seq<string>, ghost suggested: seq<string>)
    requires dao.Valid()
    ensures !x.reason.Granted? && !x.reason.Incomplete?
    ensures Explains(dao.db, code, user, key, env, x, current, suggested)
    ensures !Allowed(dao.db, code, user, key) || key !in UserPermKeys(dao.db, code, user) ==>
      ToSet(current) * ToSet(suggested) == {}
  {
    current, suggested := [], [];
    var app := dao.AppExists(code, env.app);
    if !app { return Explanation(NoApp, "", ""), [], []; }
    var perm := dao.PermissionExists(code, key, env.perm);
    if !perm { return Explanation(NoPermission, "", ""), [], []; }
    x, current, suggested := ExplainByRoles(dao, code, user, key, env);
    if !Allowed(dao.db, code, user, key) || key !in UserPermKeys(dao.db, code, user) {
      ListsAreDisjoint(dao.World(), code, user, key, env, current, suggested);
    }
  }

  /** With app and permission there, the roles tell. */
  method ExplainByRoles(dao: PermissionDAO, code: string, user: string, key: string, env: CheckEnv)
    returns (x: Explanation, ghost current: seq<string>, ghost suggested: seq<string>)
    requires dao.Valid() && AppIds(dao.db, code) != {}
    ensures ListsRoles(dao.db, code, user, key, env, current, suggested)
    ensures x == Explanation(
      if current == [] then NoRoles else NotGranted, if current == [] then "无" else Join(current), Join(suggested))
  {
    var roles := dao.GetUserRoles(code, user, env.roles);
    var reason := if roles == [] then NoRoles else NotGranted;
    var rolesText := NO_ROLES;
    if roles != [] { rolesText := JoinLoop(roles); }
    var required := dao.GetRolesWithPermission(code, key, env.suggest);
    var suggestText := "";
    if required != [] { suggestText := JoinLoop(required); }
    x, current, suggested := Explanation(reason, rolesText, suggestText), roles, required;
    AppOfTheCode(dao.World(), code);
  }

  lemma AppOfTheCode(w: World, code: string)
    requires Inv(w)
    ensures forall a :: a in AppIds(w.db, code) ==> a == The(AppIds(w.db, code))
  {
    LookupsUnique(w, code, "");
  }

  lemma ListsAreDisjoint(w: World, code: string, user: string, key: string, env: CheckEnv,
                         current: seq<string>, suggested: seq<string>)
    requires Inv(w) && AppIds(w.db, code) != {} && ListsRoles(w.db, code, user, key, env, current, suggested)
    requires !Allowed(w.db, code, user, key) || key !in UserPermKeys(w.db, code, user)
    ensures ToSet(current) * ToSet(suggested) == {}
  {
    DenialsAreConsistent(w, code, The(AppIds(w.db, code)), user, key);
  }

  // ---- AuthAgentImpl -----------------------------------------------------------------------------------

  method AgentCheck(dao: PermissionDAO, code: string, user: string, key: string, env: CheckEnv)
    returns (r: CheckResponse, ghost current: seq<string>, ghost suggested: seq<string>)
    requires dao.Valid()
    ensures r.reason.Incomplete? <==> code == "" || user == "" || key == ""
    ensures r.allowed == (!r.reason.Incomplete? && Completes(env.decide, false, 1) && Allowed(dao.db, code, user, key))
    ensures r.reason.Granted? <==> r.allowed
    ensures r.reason.Granted? || r.reason.Incomplete? ==> r.currentRoles == "" && r.suggestRoles == ""
    ensures !r.reason.Granted? && !r.reason.Incomplete? ==> Explains(
      dao.db, code, user, key, env, Explanation(r.reason, r.currentRoles, r.suggestRoles), current, suggested)
    ensures !r.fromCache
    ensures !r.allowed && Completes(env.decide, false, 1) ==> ToSet(current) * ToSet(suggested) == {}
  {
    current, suggested := [], [];
    if code == "" || user == "" || key == "" {
      return CheckResponse(false, Incomplete, false, "", ""), [], [];
    }
    var allowed := dao.CheckPermission(code, user, key, env.decide);
    r := CheckResponse(allowed, Granted, false, "", "");
    if !allowed {
      var x;
      x, current, suggested := Explain(dao, code, user, key, env);
      r := r.(reason := x.reason, currentRoles := x.currentRoles, suggestRoles := x.suggestRoles);
    }
  }

  // ---- AuthServiceImpl ---------------------------------------------------------------------------------

  datatype BatchItem = BatchItem(user: string, key: string, allowed: bool, explained: bool)

  class AuthService {
    const dao: PermissionDAO
    const cache: LocalCache?<set<string>>
    const ttl: int

    constructor (dao: PermissionDAO, cache: LocalCache?<set<string>>, ttl: int)
      ensures this.dao == dao && this.cache == cache && this.ttl == ttl
    {
      this.dao := dao;
      this.cache := cache;
      this.ttl := ttl;
    }

    /** The keys of the loaded pairs, as a set. */
    method Load(code: string, user: string, env: Env) returns (keys: set<string>)
      ensures keys <= UserPermKeys(dao.db, code, user)
      ensures Loads(dao.db, code, user, env) ==> keys == UserPermKeys(dao.db, code, user)
    {
      var perms := dao.GetUserPermissions(code, user, env);
      ghost var rows :| Enumerates(rows, Chains(dao.db, code, user)) && PairsOf(dao.db, rows, perms);
      DistinctLength(rows);
      keys := {};
      for i := 0 to |perms|
        invariant keys == set j | 0 <= j < i :: perms[j].0
      {
        keys := keys + {perms[i].0};
      }
      if Loads(dao.db, code, user, env) {
        forall key | key in UserPermKeys(dao.db, code, user) ensures key in keys {
          var c :| c in Chains(dao.db, code, user) && dao.db.perms[c.1.permId].key == key;
          assert c in ToSet(rows);
          var j :| 0 <= j < |rows| && rows[j] == c;
          assert perms[j].0 == key;
        }
      }
    }

    /** The user's permission set, from the cache or, on a miss, from the database by way of the cache. */
    method KnownPerms(code: string, user: string, now: int, putAt: int, env: Env)
      returns (perms: set<string>, hit: bool)
      modifies cache
      ensures hit == (cache != null && old(Lookup(cache.entries, CacheKey(code, user), now)).Some?)
      ensures hit ==> perms == old(cache.entries)[CacheKey(code, user)].value && cache.entries == old(cache.entries)
      ensures !hit ==> perms <= UserPermKeys(dao.db, code, user)
      ensures !hit && Loads(dao.db, code, user, env) ==> perms == UserPermKeys(dao.db, code, user)
      ensures !hit && cache != null ==>
        cache.entries == Refreshed(old(cache.entries), code, user, perms, now, putAt, ttl)
    {
      var cacheKey := CacheKey(code, user);
      var found: Option<set<string>> := None;
      if cache != null { found := cache.Get(cacheKey, now); }
      if found.Some? { return found.value, true; }
      perms := Load(code, user, env);
      if cache != null { cache.Put(cacheKey, perms, ttl, putAt); }
      hit := false;
    }

    /**
     * Check at `now`, putting a loaded set at `putAt`.  `known` is the set the answer was read from:
     * the cached one on a hit, the loaded one otherwise.
     */
    method Check(code: string, user: string, key: string, now: int, putAt: int, env: CheckEnv)
      returns (r: CheckResponse, ghost known: set<string>, ghost current: seq<string>, ghost suggested: seq<string>)
      requires dao.Valid()
      modifies cache
      ensures r.reason.Incomplete? <==> code == "" || user == "" || key == ""
      ensures r.reason.Incomplete? ==>
        !r.allowed && !r.fromCache && (cache != null ==> cache.entries == old(cache.entries))
      ensures !r.reason.Incomplete? ==> r.allowed == (key in known)
      ensures r.reason.Granted? <==> r.allowed
      ensures !r.reason.Incomplete? ==>
        r.fromCache == (cache != null && old(Lookup(cache.entries, CacheKey(code, user), now)).Some?)
      ensures r.fromCache ==>
        known == old(cache.entries)[CacheKey(code, user)].value && cache.entries == old(cache.entries)
      ensures !r.fromCache ==> known <= UserPermKeys(dao.db, code, user)
      ensures !r.fromCache && !r.reason.Incomplete? && Loads(dao.db, code, user, env.decide) ==>
        known == UserPermKeys(dao.db, code, user)
      ensures !r.fromCache && !r.reason.Incomplete? && cache != null ==>
        cache.entries == Refreshed(old(cache.entries), code, user, known, now, putAt, ttl)
      ensures r.reason.Granted? || r.reason.Incomplete? ==> r.currentRoles == "" && r.suggestRoles == ""
      ensures !r.reason.Granted? && !r.reason.Incomplete? ==> Explains(
        dao.db, code, user, key, env, Explanation(r.reason, r.currentRoles, r.suggestRoles), current, suggested)
      ensures !r.allowed && !r.fromCache && Loads(dao.db, code, user, env.decide) ==>
        ToSet(current) * ToSet(suggested) == {}
    {
      known, current, suggested := {}, [], [];
      if code == "" || user == "" || key == "" {
        r := CheckResponse(false, Incomplete, false, "", "");
        return;
      }
      var perms, hit := KnownPerms(code, user, now, putAt, env.decide);
      known := perms;
      var allowed := key in perms;
      r := CheckResponse(allowed, Granted, hit, "", "");
      if !allowed {
        var x;
        x, current, suggested := Explain(dao, code, user, key, env);
        r := r.(reason := x.reason, currentRoles := x.currentRoles, suggestRoles := x.suggestRoles);
      }
    }

    /** Check with a load that succeeds keeps the cache coherent and answers what the database holds. */
    method CoherentCheck(code: string, user: string, key: string, now: int, putAt: int, env: CheckEnv)
      returns (allowed: bool)
      requires dao.Valid() && cache != null
      requires code != "" && user != "" && key != "" && Free(COLON, code) && now <= putAt
      requires Coherent(dao.db, cache.entries, now) && Loads(dao.db, code, user, env.decide)
      modifies cache
      ensures Coherent(dao.db, cache.entries, putAt)
      ensures allowed == (key in UserPermKeys(dao.db, code, user))
      ensures cache.entries == Serve(
        System(dao.World(), old(cache.entries), now, ttl), Asking(code, user, now, putAt)).m
    {
      ghost var was := cache.entries;
      var r, known, _, _ := Check(code, user, key, now, putAt, env);
      LaterStaysCoherent(dao.db, was, now, putAt);
      RefreshStaysCoherent(dao.db, was, code, user, now, putAt, ttl);
      assert Lookup(was, CacheKey(code, user), now).Some? ==> Live(was, code, user, now);
      allowed := r.allowed;
    }

    /** The i-th result answers the i-th item, by the COUNT join. */
    method BatchCheck(code: string, items: seq<(string, string)>, envs: seq<Env>) returns (r: Option<seq<BatchItem>>)
      requires |envs| == |items|
      ensures r.None? <==> code == "" || items == []
      ensures r.Some? ==> |r.value| == |items|
      ensures r.Some? ==> forall i :: 0 <= i < |items| ==> var item := r.value[i];
        && item.user == items[i].0 && item.key == items[i].1 && item.explained == !item.allowed
        && item.allowed == (Completes(envs[i], false, 1) && Allowed(dao.db, code, items[i].0, items[i].1))
    {
      if code == "" || |items| == 0 { return None; }
      var queries: seq<(string, string)> := [];
      for i := 0 to |items|
        invariant queries == items[..i]
      {
        queries := queries + [(items[i].0, items[i].1)];
      }
      assert queries == items;
      var results := dao.BatchCheckPermissions(code, queries, envs);
      var out := [];
      for i := 0 to |results|
        invariant |out| == i
        invariant forall j :: 0 <= j < i ==> out[j] == BatchItem(items[j].0, items[j].1, results[j], !results[j])
      {
        out := out + [BatchItem(items[i].0, items[i].1, results[i], !results[i])];
      }
      r := Some(out);
    }
  }

  // ---- AdminServiceImpl --------------------------------------------------------------------------------

  datatype Outcome = Unauthorized | MissingParameter | Failed | Done

  const BEARER := "Bearer "

  function TokenOf(header: Option<string>): Option<string> {
    if header.Some? && BEARER <= header.value then Some(header.value[|BEARER|..]) else None
  }

  /** What ValidateToken finds. */
  function SessionFor(sessions: Entries<Session>, header: Option<string>, now: int): Option<Session> {
    match TokenOf(header)
    case None => None
    case Some(token) =>
      var s := Lookup(sessions, token, now);
      if s.Some? && s.value.username != "" then s else None
  }

  /** The parameters each handler insists on. */
  predicate Complete(c: Command) {
    match c
    case CreateApp(code, name, _) => code != "" && name != ""
    case UpdateApp(code, _) => code != ""
    case DeleteApp(code) => code != ""
    case Grant(code, user, role) => code != "" && user != "" && role != ""
    case Revoke(code, user, role) => code != "" && user != "" && role != ""
    case AddPermToRole(code, role, perm) => code != "" && role != "" && perm != ""
    case RemovePermFromRole(code, role, perm) => code != "" && role != "" && perm != ""
    case CreateRole(code, role, name) => code != "" && role != "" && name != ""
    case CreatePerm(code, perm, name) => code != "" && perm != "" && name != ""
    case DeleteRole(code, role) => code != "" && role != ""
    case DeletePerm(code, perm) => code != "" && perm != ""
    case UpdateRole(code, role) => code != "" && role != ""
    case UpdatePerm(code, perm, _) => code != "" && perm != ""
  }

  class AdminService {
    const dao: PermissionDAO
    const cache: LocalCache?<set<string>>
    const sessions: LocalCache<Session>
    const sessionTtl: int

    constructor (dao: PermissionDAO, cache: LocalCache?<set<string>>, sessionTtl: int)
      ensures this.dao == dao && this.cache == cache && this.sessionTtl == sessionTtl
      ensures fresh(sessions) && sessions.entries == map[]
    {
      this.dao := dao;
      this.cache := cache;
      this.sessionTtl := sessionTtl;
      sessions := new LocalCache<Session>();
    }

    method ValidateToken(header: Option<string>, now: int) returns (s: Option<Session>)
      modifies sessions
      ensures s == SessionFor(old(sessions.entries), header, now)
      ensures sessions.entries ==
        match TokenOf(header) {
          case None => old(sessions.entries)
          case Some(token) => Evicted(old(sessions.entries), token, now)
        }
    {
      if header.None? || !(BEARER <= header.value) { return None; }
      var token := header.value[|BEARER|..];
      var found := sessions.Get(token, now);
      if found.None? || found.value.username == "" { return None; }
      s := found;
    }

    /** Invalidate the entries the operation can affect. */
    method InvalidateFor(c: Command)
      requires cache != null
      modifies cache
      ensures cache.entries == Invalidated(old(cache.entries), c)
    {
      match c
      case Grant(code, user, _) => cache.Invalidate(CacheKey(code, user));
      case Revoke(code, user, _) => cache.Invalidate(CacheKey(code, user));
      case AddPermToRole(code, _, _) => cache.InvalidatePrefix(AppPrefix(code));
      case RemovePermFromRole(code, _, _) => cache.InvalidatePrefix(AppPrefix(code));
      case _ =>
    }

    method Execute(c: Command, env: Env) returns (ok: bool)
      requires dao.Valid()
      modifies dao`db, dao`born
      ensures dao.Valid() && Ran(old(dao.World()), dao.World(), c, ok, env, dao.matched)
    {
      match c
      case CreateApp(code, name, description) => ok := dao.CreateApp(code, name, description, env);
      case UpdateApp(code, patch) => ok := dao.UpdateApp(code, patch, env);
      case DeleteApp(code) => ok := dao.DeleteApp(code, env);
      case Grant(code, user, role) => ok := dao.AssignRoleToUser(code, user, role, env);
      case Revoke(code, user, role) => ok := dao.RemoveRoleFromUser(code, user, role, env);
      case AddPermToRole(code, role, perm) => ok := dao.AddPermissionToRole(code, role, perm, env);
      case RemovePermFromRole(code, role, perm) => ok := dao.RemovePermissionFromRole(code, role, perm, env);
      case CreateRole(code, role, name) => ok := dao.CreateRole(code, role, name, env);
      case CreatePerm(code, perm, name) => ok := dao.CreatePermission(code, perm, name, env);
      case DeleteRole(code, role) => ok := dao.DeleteRole(code, role, env);
      case DeletePerm(code, perm) => ok := dao.DeletePermission(code, perm, env);
      case UpdateRole(code, role) => ok := dao.UpdateRole(code, role, env);
      case UpdatePerm(code, perm, name) => ok := dao.UpdatePermission(code, perm, name, env);
    }

    /** Each handler's parameter check. */
    method Misses(c: Command) returns (missing: bool)
      ensures missing <==> !Complete(c)
    {
      match c
      case CreateApp(code, name, _) => missing := code == "" || name == "";
      case UpdateApp(code, _) => missing := code == "";
      case DeleteApp(code) => missing := code == "";
      case Grant(code, user, role) => missing := code == "" || user == "" || role == "";
      case Revoke(code, user, role) => missing := code == "" || user == "" || role == "";
      case AddPermToRole(code, role, perm) => missing := code == "" || role == "" || perm == "";
      case RemovePermFromRole(code, role, perm) => missing := code == "" || role == "" || perm == "";
      case CreateRole(code, role, name) => missing := code == "" || role == "" || name == "";
      case CreatePerm(code, perm, name) => missing := code == "" || perm == "" || name == "";
      case DeleteRole(code, role) => missing := code == "" || role == "";
      case DeletePerm(code, perm) => missing := code == "" || perm == "";
      case UpdateRole(code, role) => missing := code == "" || role == "";
      case UpdatePerm(code, perm, _) => missing := code == "" || perm == "";
    }

    /** The rest of a handler, once the operator is known. */
    method Perform(session: Session, c: Command, env: Env, auditEnv: Env) returns (outcome: Outcome)
      requires dao.Valid()
      modifies dao`db, dao`born, dao`auditLogs, cache
      ensures dao.Valid() && !outcome.Unauthorized?
      ensures outcome.MissingParameter? <==> !Complete(c)
      ensures outcome.MissingParameter? ==> dao.World() == old(dao.World())
      ensures !outcome.MissingParameter? ==> Ran(old(dao.World()), dao.World(), c, outcome.Done?, env, dao.matched)
      ensures cache != null ==> cache.entries == Invalidated(old(cache.entries), c)
      ensures dao.auditLogs == old(dao.auditLogs) +
        if outcome.Done? && Completes(auditEnv, false, 1) then [AuditOf(session, c)] else []
    {
      if cache != null { InvalidateFor(c); }
      var missing := Misses(c);
      if missing { return MissingParameter; }
      var ok := Execute(c, env);
      if !ok { return Failed; }
      var logged := dao.CreateAuditLog(AuditOf(session, c), auditEnv);
      return Done;
    }

    /**
     * The skeleton every mutating handler follows: authorize, invalidate, check parameters, write,
     * and on success write one audit row in the operator's name.
     */
    method Handle(header: Option<string>, c: Command, now: int, env: Env, auditEnv: Env) returns (outcome: Outcome)
      requires dao.Valid()
      modifies dao`db, dao`born, dao`auditLogs, cache, sessions
      ensures dao.Valid()
      ensures outcome.Unauthorized? <==> old(SessionFor(sessions.entries, header, now)).None?
      ensures outcome.MissingParameter? <==> !outcome.Unauthorized? && !Complete(c)
      ensures outcome.Unauthorized? || outcome.MissingParameter? ==> dao.World() == old(dao.World())
      ensures outcome.Done? || outcome.Failed? ==>
        Ran(old(dao.World()), dao.World(), c, outcome.Done?, env, dao.matched)
      ensures cache != null ==>
        cache.entries == if outcome.Unauthorized? then old(cache.entries) else Invalidated(old(cache.entries), c)
      ensures dao.auditLogs == old(dao.auditLogs)
        + if outcome.Done? && Completes(auditEnv, false, 1)
          then [AuditOf(old(SessionFor(sessions.entries, header, now)).value, c)] else []
      ensures outcome.Done? && Completes(auditEnv, false, 1) ==>
        TellsOf(dao.auditLogs[|old(dao.auditLogs)|], old(SessionFor(sessions.entries, header, now)).value, c)
    {
      var session := ValidateToken(header, now);
      if session.None? { return Unauthorized; }
      outcome := Perform(session.value, c, env, auditEnv);
      RowTellsOf(session.value, c);
    }

    /** A handler run to its end, whatever fails on the way, keeps the cache coherent but for the two deletes. */
    method CoherentHandle(header: Option<string>, c: Command, now: int, env: Env, auditEnv: Env)
      returns (outcome: Outcome)
      requires dao.Valid() && cache != null
      requires Coherent(dao.db, cache.entries, now) && !c.DeletePerm? && !c.DeleteApp?
      modifies dao`db, dao`born, dao`auditLogs, cache, sessions
      ensures dao.Valid() && Coherent(dao.db, cache.entries, now)
      ensures !outcome.Unauthorized? ==> forall ttl ::
        System(dao.World(), cache.entries, now, ttl) == Serve(
          System(old(dao.World()), old(cache.entries), now, ttl), Managing(c, Complete(c) && Undisturbed(env, c), now))
    {
      ghost var w, m := dao.World(), cache.entries;
      outcome := Handle(header, c, now, env, auditEnv);
      CommandKeepsCoherence(w, c, m, now);
      FewerEntriesStayCoherent(w.db, m, c, now);
    }

    /** `crypt` is the C library's; the token is whatever the random digits come out as. */
    method Login(username: string, password: string, crypt: (string, string) -> Option<string>, token: string,
                 now: int, env: Env)
      returns (ok: bool)
      modifies sessions
      ensures ok == (username != "" && password != "" && Completes(env, false, 1) && username in dao.consoleUsers
        && dao.consoleUsers[username].id != -1
        && crypt(password, dao.consoleUsers[username].passwordHash) == Some(dao.consoleUsers[username].passwordHash))
      ensures sessions.entries ==
        if ok then old(sessions.entries)[token := Entry(SessionOf(dao.consoleUsers[username]), now + sessionTtl)]
        else old(sessions.entries)
    {
      if username == "" || password == "" { return false; }
      var user := dao.GetConsoleUser(username, env);
      if user.id == -1 { return false; }
      var hash := crypt(password, user.passwordHash);
      if hash.None? || user.passwordHash != hash.value { return false; }
      sessions.Put(token, SessionOf(user), sessionTtl, now);
      return true;
    }
  }

  /** What the cached server answers is what the uncached agent answers, for an enabled app with a coherent cache. */
  lemma CachedAndUncachedAgree(w: World, m: PermCache, code: string, user: string, key: string, now: int)
    requires Inv(w) && Coherent(w.db, m, now) && Free(COLON, code) && Live(m, code, user, now)
    requires exists a :: IsApp(w.db, code, a) && w.db.apps[a].status == ENABLED
    ensures key in m[CacheKey(code, user)].value <==> Allowed(w.db, code, user, key)
  {
    PathsAgree(w, code, user, key);
  }

  // ---- what a login is good for --------------------------------------------------------------------------

  /** A stored token authorizes, as its user, exactly the requests that bear it until it expires. */
  lemma LoginAuthorizes(m: Entries<Session>, user: ConsoleUser, token: string, ttl: int, at: int, now: int)
    ensures var m' := m[token := Entry(SessionOf(user), at + ttl)];
      SessionFor(m', Some("Bearer " + token), now)
        == if now <= at + ttl && user.username != "" then Some(Session(user.id, user.username, user.realName)) else None
  {
    var header := "Bearer " + token;
    assert header[..7] == "Bearer " && header[7..] == token;
  }

  /** And only by its own header: what another header finds does not change. */
  lemma LoginLeavesOthers(m: Entries<Session>, s: Session, token: string, expiry: int, header: string, now: int)
    requires header != "Bearer " + token
    ensures SessionFor(m[token := Entry(s, expiry)], Some(header), now) == SessionFor(m, Some(header), now)
    ensures !("Bearer " <= header) ==> SessionFor(m, Some(header), now) == None
  {
    if "Bearer " <= header {
      assert header == "Bearer " + header[7..];
    }
  }
}
