# A verified model of the siqi_auth permission service

siqi_auth is a role-based access control service: MySQL tables of apps, roles, permissions and
links, a data-access object with a connection pool, a server that answers permission checks through a
TTL cache, an agent that answers them without one, and an admin service that changes the tables and
writes an audit log. This project models that logic in Dafny and proves what the service promises
about it, over every interleaving where the code runs concurrently.

## How the model is laid out

| file | contents |
|---|---|
| `Tables.dfy` | the five tables of `scripts/init.sql` and each SQL statement as one atomic function |
| `History.dfy` | what each id was created under, and the invariant every statement keeps |
| `StoreRuns.dfy` | DAO calls in progress at once, one SQL statement at a time |
| `Decisions.dfy`, `Listing.dfy` | what the decision and listing queries mean |
| `Grants.dfy`, `Links.dfy`, `Outcomes.dfy` | what each administrative operation changes, read off those queries |
| `LeftBehind.dfy` | a run in which `listRoles` repeats a permission key |
| `Commands.dfy`, `Dao.dfy`, `Refinement.dfy` | each operation's effect, `PermissionDAO` as a class proved against it, and the effect as an uninterrupted run of `StoreRuns` |
| `TtlCache.dfy`, `Text.dfy` | `LocalCache` as a class, cache keys, comma joining and splitting |
| `Coherence.dfy`, `Staleness.dfy` | cache against database, without and with overlapping requests |
| `Deployment.dfy` | `Staleness` over `StoreRuns`: overlapping Checks over overlapping DAO calls |
| `Services.dfy`, `Audit.dfy`, `Sessions.dfy` | the RPC handlers as classes, audit rows, sessions and audit writes interleaved |
| `Pool.dfy` | the connection pool: one method per critical section, and all interleavings of them |
| `Binding.dfy`, `Paging.dfy` | parameter binding of assembled statements, `listApps` |

Run `dafny verify dfyconfig.toml` to check everything.

## Assumptions

- Each SQL statement is atomic (autocommit); one that fails changes nothing. A unique-key violation is such a failure.
- AUTO_INCREMENT ids are never reused.
- SQL string equality is equality of strings. The real collation ignores case, so the model speaks of canonical keys.
- `GROUP_CONCAT` skips NULLs and does not truncate; `getString` of NULL is the empty string.
- Rows of a query without `ORDER BY` come in any order (`Basics.Fetch`).
- The clock of the cache does not go back.
- Signed 32-bit overflow in `(page - 1) * page_size`, undefined in C++, wraps.
- What fails is a parameter (`Dao.Env`): a guard without a connection, a nested `getAppId` that fails, a statement that throws, a fetch that stops half way.

## Where the code does less than one might expect

- A role-permission row need not link ids of one app: `addPermissionToRole` looks role and permission up in two
  statements, and an app deleted and created again in between makes them ids of two apps
  (`StoreRuns.LinkCanSpanTwoApps`; `StoreRuns.LinkStaysInOneAppIff` says exactly when). The row always links ids of one
  app *code*, the permission's app not older than the role's, and that is enough for every decision join to stay
  inside the requested app (`Decisions.JoinStaysInApp`).
- DeletePermission and DeleteApp change what users hold without invalidating the cache
  (`Coherence.DeletesLeaveStaleEntries`); the exact conditions under which the cache stays right are
  `Coherence.DeletePermCoherentIff` and `Coherence.DeleteAppCoherentIff`.
  A TTL after the last such deletion the cache is right again (`Coherence.CoherenceReturns`).
- Handlers invalidate before they write, so a Check that loads before the invalidation and puts after the write
  keeps a revoked permission answering for a whole TTL (`Staleness.RaceKeepsRevokedPermission`, and with an actual
  revoke `Staleness.RevokeCanLoseRace`); only a Check that loads before the write and puts after the invalidation
  can (`Staleness.StaleOnlyAfterARace`).
- `listRoles` can name a permission key twice for a role: getAppId and the listing are two statements, and an app
  replaced in between leaves roles behind that can be linked to two permissions of one key
  (`LeftBehind.ListRolesCanRepeatAKey`). `Listing.RepeatsIffLinkedTwice` says exactly when, and while the role's app
  is there it never happens (`Listing.LiveAppLinksOnce`).
- The name filter of `listApps` is a substring search only for names without `%`, `_` and backslashes
  (`Binding.NameFilterIsSubstringIff`).
- Deleting a role does not take its permissions from anybody: the decision joins never read `sys_roles`
  (`Decisions.AllowMeaning`, `Coherence.RoleWritesAreInvisible`).
- Two app codes can share a cache key when one continues the other after a ':' (`Text.KeysCollideIff`), so the
  cache theorems are about ':'-free app codes.

## Model

| member | source | states |
|---|---|---|
| StoreRuns.EveryRunIsSafe | src/permission_dao.cpp:525-637 | In every interleaving of DAO calls, failures included, user-role rows carry the app their role id was created under, role-permission rows link ids of one app code, live apps are the newest with their code, and keys stay unique; ids never change owner |
| StoreRuns.SecondLookupKeepsSafe | src/permission_dao.cpp:612-623 | The permission found at the second lookup belongs to an app of the same code as the role's, and not an older one, whatever was deleted and re-created in between |
| StoreRuns.LinkCanSpanTwoApps | src/permission_dao.cpp:591-637 | A concrete run after which a stored role-permission row links ids created under two different app ids |
| StoreRuns.LinkStaysInOneAppIff | src/permission_dao.cpp:599-632 | The row to be inserted links ids of one app exactly when the role's app row still exists at the second lookup |
| StoreRuns.FreshIdsUnused | scripts/init.sql:86-110 | No link row and no half-finished call refers to an id the counters have not handed out, orphan rows included |
| StoreRuns.NeverRevived | src/permission_dao.cpp:336-349 | Through any run, an unused permission or role id gets into a link table only after a lookup that returned it |
| StoreRuns.AbortedCallLeavesNoTrace | src/permission_dao.cpp:541-559 | A call that fails after its lookups leaves the tables as they were and every other call where it was |
| StoreRuns.ListingLeavesNoTrace | src/permission_dao.cpp:762-807 | listRoles changes no table and disturbs no other call |
| StoreRuns.StartIsSafe | scripts/init.sql:26-110 | The invariant of every run holds of empty tables |
| History.AddAppKeeps | src/permission_dao.cpp:263-275 | Creating an app, with the unique key on its code, leaves the tables' invariant intact and history append-only |
| History.AddRoleKeeps | src/permission_dao.cpp:474-487 | Inserting a role under any app id ever handed out, live or deleted since, keeps the invariant |
| History.AddPermKeeps | src/permission_dao.cpp:506-518 | Inserting a permission under any app id ever handed out keeps the invariant |
| History.DeletesKeep | src/permission_dao.cpp:336-349 | Deleting apps, roles, permissions, assignments or bindings keeps the invariant although nothing cascades |
| History.LookupsUnique | src/permission_dao.cpp:446-459 | A lookup by app code, or by app code and key, has at most one answer |
| Decisions.JoinStaysInApp | src/permission_dao.cpp:145-153 | Every chain of the decision joins ends in a permission of the requested app and passes through a role created in it, though neither is a join condition |
| Decisions.IsolationInEveryRun | src/permission_dao.cpp:223-251 | After any interleaving, a key that getUserPermissions or checkPermission yields is defined in the requested app |
| Decisions.PathsAgree | src/permission_dao.cpp:135-251 | For an enabled app the COUNT join and membership in the loaded set give one answer |
| Decisions.DisabledDenies | src/permission_dao.cpp:150-153 | The COUNT join allows nothing unless an enabled app with that code exists |
| Decisions.AllowMeaning | src/permission_dao.cpp:143-154 | An allow is a role in both getUserRoles and getRolesWithPermission, or a chain through a deleted role |
| Decisions.AllowIsRoleIntersection | src/permission_dao.cpp:195-205 | With no dangling role ids an allow is exactly a non-empty intersection of the two role lists |
| Decisions.MeetGivesChain | src/permission_dao.cpp:974-981 | A role key common to both lists is one role row and gives a granting chain |
| Decisions.DenialsAreConsistent | src/auth_agent_impl.cpp:51-74 | When a check denies, no role the user has is among the roles suggested |
| Decisions.NewPermissionIsUnheld | src/permission_dao.cpp:494-523 | Nobody holds a permission just created, also under a key deleted while still linked and with link calls in mid-flight |
| Decisions.UnheldUntilLinked | src/permission_dao.cpp:591-637 | ... nor after any run in which no call has looked the new permission up to link it |
| Decisions.NewAppIsEmpty | src/permission_dao.cpp:253-280 | In an app just created, also under a deleted app's code, nobody has a role or a permission |
| Decisions.NewRoleIsBare | src/permission_dao.cpp:461-492 | A role just created, also under a deleted role's key, has no users and no permissions |
| Grants.RevokeRemovesAtMostOne | src/permission_dao.cpp:566-589 | The revoking DELETE removes at most one row, of the named app's role, although it does not compare the role's app |
| Grants.RevokeUndoesGrant | src/permission_dao.cpp:525-589 | Granting an absent assignment and revoking it restores the database |
| Grants.GrantUndoesRevoke | src/permission_dao.cpp:525-589 | Revoking a present assignment and granting it again restores the database |
| Grants.RevokeIsPrecise | src/permission_dao.cpp:566-589 | After a revoke the user keeps a permission iff another role id's link row grants it; other users and apps are unaffected |
| Links.GrantIsPrecise | src/permission_dao.cpp:525-564 | A grant adds to the user's keys exactly the role's permissions |
| Links.GrantListsRole | src/permission_dao.cpp:525-564 | A grant adds to the user's role list exactly the role, if the app is enabled |
| Links.UnlinkUndoesLink | src/permission_dao.cpp:591-663 | Linking an absent pair and unlinking it restores the database |
| Links.LinkUndoesUnlink | src/permission_dao.cpp:591-663 | Unlinking a present pair and linking it again restores the database |
| Links.BindingsAre | src/permission_dao.cpp:643-651 | The DELETE, which does not compare the permission's app, removes only the row linking the app's role of that key to the app's permission of that key |
| Links.UnlinkIsPrecise | src/permission_dao.cpp:639-663 | The role loses that permission and no other; no other role, of whatever app, loses any |
| Links.LinkIsPrecise | src/permission_dao.cpp:591-637 | The role gains that permission and no other; no other role gains any |
| Links.UnlinkForUsers | src/permission_dao.cpp:639-663 | After an unlink a user keeps a key exactly when it is another one or another role id grants it |
| Links.RolesAndPermissionsMatch | src/permission_dao.cpp:937-993 | getRolePermissions lists a permission for a role exactly when getRolesWithPermission lists the role for the permission |
| Links.UsersAndRolesMatch | src/permission_dao.cpp:1017-1069 | For an enabled app, getUserRoles lists a role for a user exactly when getRoleUsers lists the user for the role |
| Outcomes.CreateAppAdds | src/permission_dao.cpp:253-280 | The code answers to one new enabled app with the name and description given; nothing else changes |
| Outcomes.DeleteAppFrees | src/permission_dao.cpp:336-349 | The code answers to nothing any more, every other code as before, and what was inside stays behind |
| Outcomes.UpdateAppSets | src/permission_dao.cpp:282-334 | Each column named takes its value; the other columns and the apps of other codes keep theirs |
| Outcomes.DisablingDenies | src/permission_dao.cpp:303-308 | An app given another status than 1 denies every user every key in the COUNT join |
| Outcomes.EnablingAllows | src/permission_dao.cpp:303-308 | An app given status 1 allows each user exactly the keys the user's chains reach |
| Outcomes.CreateRoleAdds | src/permission_dao.cpp:461-492 | One new role answers to the key unless one did; every other role lookup is unchanged |
| Outcomes.DeleteRoleRemoves | src/permission_dao.cpp:704-731 | No role answers to the key; every other role lookup and role row is unchanged |
| Outcomes.CreatePermAdds | src/permission_dao.cpp:494-523 | One new permission with the name given answers to the key unless one did; every other lookup is unchanged |
| Outcomes.DeletePermRemoves | src/permission_dao.cpp:733-760 | No permission answers to the key; every other lookup and permission row is unchanged |
| Outcomes.UpdatePermShows | src/permission_dao.cpp:878-909 | getUserPermissions shows the new name for exactly that permission, and keeps every key |
| Outcomes.AcceptedIffChanged | src/permission_dao.cpp:541-559 | Creating, deleting, granting, revoking, linking and unlinking report success exactly when they change the database |
| Outcomes.UpdateAcceptedIff | src/permission_dao.cpp:326-328 | An app update reports success when it names no column, when a row matched, or when one changed, by the connector's counting |
| Outcomes.OnboardingAllows | src/permission_dao.cpp:135-175 | After creating an app, a role and a permission, linking and granting, that user and no other is allowed that key and no other |
| Listing.ConcatRefinesPerRoleQuery | src/permission_dao.cpp:769-780 | The LEFT JOIN with GROUP_CONCAT yields any role exactly its getRolePermissions keys, despite NULLs from orphan rows, and for a role of a live app each once |
| Listing.RepeatsIffLinkedTwice | src/permission_dao.cpp:774-778 | In any database whatever, the concatenation repeats a key exactly when two of the role's links lead to live permissions with one key |
| Listing.LiveAppLinksOnce | src/permission_dao.cpp:774-778 | A role whose app is live is never linked twice to one key |
| Listing.LeftJoinKeepsRole | src/permission_dao.cpp:774-780 | Every role keeps a row, all NULLs exactly when it has no link, and each link has its row |
| Listing.LiveLinkInApp | src/permission_dao.cpp:774-778 | A role of a live app is linked, among live permissions, only to that app's |
| LeftBehind.ListRolesCanRepeatAKey | src/permission_dao.cpp:766-799 | A run of interleaved calls from empty tables after which a listRoles call between its two statements will answer one role's key twice |
| Dao.PermissionDAO.ListRoles | src/permission_dao.cpp:762-807 | Lists each role of the app once, with the split of its concatenated keys |
| Dao.PermissionDAO.ListedPermKeys | src/permission_dao.cpp:792-800 | One role's keys are the comma split of the comma join of its non-NULL keys in some row order |
| Dao.ListedKeysAreRolePermissions | src/permission_dao.cpp:762-807 | With non-empty comma-free keys every listed role carries exactly what getRolePermissions returns, without repetition |
| Dao.PermissionDAO.GetRolePermissions | src/permission_dao.cpp:937-964 | Returns the keys linked to the app's role of that key, each once, fewer after a failure |
| Dao.PermissionDAO.GetUserPermissions | src/permission_dao.cpp:223-251 | One pair per joined row; a failure loses rows and never adds any |
| Dao.PermissionDAO.GetUserRoles | src/permission_dao.cpp:188-221 | The enabled app's roles of the user whose rows exist, each once, fewer after a failure |
| Dao.PermissionDAO.GetRolesWithPermission | src/permission_dao.cpp:966-993 | The roles of the live app that a permission of that key is linked to, each once, fewer after a failure |
| Dao.PermissionDAO.BatchCheckPermissions | src/permission_dao.cpp:177-186 | Keeps length and order; each answer is the COUNT join's for its own item |
| Dao.PermissionDAO.GetAppId | src/permission_dao.cpp:446-459 | The one id with the code, or -1 |
| Dao.PermissionDAO.PermissionExists | src/permission_dao.cpp:999-1015 | True iff the live app of that code defines the key and nothing fails |
| Dao.PermissionDAO.CreateApp | src/permission_dao.cpp:253-280 | Takes its whole effect and says so, or leaves no trace |
| Dao.PermissionDAO.UpdateApp | src/permission_dao.cpp:282-334 | Changes exactly the columns given; success means a row matched (or changed, by the connector's counting) or nothing was asked |
| Dao.PermissionDAO.DeleteApp | src/permission_dao.cpp:336-349 | Removes the app row only; success iff there was one |
| Dao.PermissionDAO.CreateRole | src/permission_dao.cpp:461-492 | Adds the role to the live app unless the app is missing or the key taken; else no trace |
| Dao.PermissionDAO.CreatePermission | src/permission_dao.cpp:494-523 | Adds the permission to the live app unless the app is missing or the key taken; else no trace |
| Dao.PermissionDAO.AssignRoleToUser | src/permission_dao.cpp:525-564 | Adds the one assignment row unless the role is missing or already assigned; else no trace |
| Dao.PermissionDAO.RemoveRoleFromUser | src/permission_dao.cpp:566-589 | Removes the joined rows; success iff there was one |
| Dao.PermissionDAO.AddPermissionToRole | src/permission_dao.cpp:591-637 | Adds the one link row unless role or permission is missing or already linked; else no trace |
| Dao.PermissionDAO.RemovePermissionFromRole | src/permission_dao.cpp:639-663 | Removes the joined link rows; success iff there was one |
| Dao.PermissionDAO.DeleteRole | src/permission_dao.cpp:704-731 | Removes the role row only; success iff there was one |
| Dao.PermissionDAO.DeletePermission | src/permission_dao.cpp:733-760 | Removes the permission row only; success iff there was one |
| Dao.PermissionDAO.UpdatePermission | src/permission_dao.cpp:878-909 | Renames at most the one permission; keys stay |
| Dao.PermissionDAO.CreateAuditLog | src/permission_dao.cpp:665-702 | Appends the row given, or nothing |
| Commands.RefusedChangesNothing | src/permission_dao.cpp:541-559 | An operation that reports failure has left the database as it was |
| Commands.EffectKeepsInv | src/permission_dao.cpp:253-909 | Every whole operation keeps the tables' invariant |
| Refinement.EffectIsARun | src/permission_dao.cpp:461-760 | An operation's effect is what its statements do as an uninterrupted thread of the interleaved model |
| TtlCache.LocalCache.Put | include/local_cache.h:20-24 | Binds the key to the value until now plus the TTL and touches no other key |
| TtlCache.LocalCache.Get | include/local_cache.h:27-39 | Answers an entry up to and including its expiry instant and evicts only that key, only when past it |
| TtlCache.LocalCache.InvalidatePrefix | include/local_cache.h:49-58 | The erasing iterator loop removes exactly the keys that start with the prefix |
| TtlCache.LocalCache.Invalidate | include/local_cache.h:42-45 | Removes exactly that key |
| TtlCache.GetRefinesTimedMap | include/local_cache.h:20-64 | After any calls with a clock that does not go back, Get returns the last Put value iff nothing invalidated it since and it is not past its expiry; Gets leave no trace |
| TtlCache.HoldsLastPut | include/local_cache.h:27-39 | The real map holds the abstract entry, or has evicted one that is past its expiry |
| TtlCache.EvictionShowsIff | include/local_cache.h:33-36 | Whatever the clock, lazy eviction can be observed exactly when an entry still good has been seen expired by an earlier Get |
| Text.CacheKeyInjective | src/auth_service_impl.cpp:38 | With ':'-free app codes a cache key names one app and user, even when user ids contain ':' |
| Text.PrefixIsApp | src/admin_service_impl.cpp:338 | With ':'-free app codes the prefix matches exactly that app's keys |
| Text.KeysCollideIff | src/auth_service_impl.cpp:38 | Two app codes can produce one key exactly when one is the other's start up to a ':' or they are equal |
| Text.RoundTripIff | src/permission_dao.cpp:793-799 | Splitting a joined list returns it exactly when no item has a comma and the last is not empty |
| Text.JoinOfSplit | src/permission_dao.cpp:1134-1150 | Joining a split string returns it, less a final comma |
| Text.JoinLoop | src/auth_service_impl.cpp:82-90 | The concatenating loop computes the comma join |
| Text.SplitLoop | src/permission_dao.cpp:795-799 | The getline loop computes the comma split |
| Coherence.CommandKeepsCoherence | src/admin_service_impl.cpp:250-263 | Every admin operation but two leaves each unexpired entry equal to the user's current keys, because what it invalidates covers every user it affects |
| Coherence.EveryRunIsCoherent | src/auth_service_impl.cpp:37-71 | After every run of non-overlapping requests without those two, failed writes included, every unexpired entry equals the current keys |
| Coherence.LinkWritesStayInApp | src/admin_service_impl.cpp:334-346 | Linking or unlinking changes no user's keys in any other app, so one app's prefix is enough |
| Coherence.GrantStaysWithUser | src/admin_service_impl.cpp:251-263 | A grant changes the keys of no other user or app |
| Coherence.RevokeStaysWithUser | src/admin_service_impl.cpp:297-306 | A revoke changes the keys of no other user or app |
| Coherence.AppWritesAreInvisible | src/admin_service_impl.cpp:62-76 | Creating an app, or changing its status, changes nobody's loaded keys |
| Coherence.PermWritesAreInvisible | src/admin_service_impl.cpp:453-464 | Creating or renaming a permission changes nobody's loaded keys |
| Coherence.RoleWritesAreInvisible | src/admin_service_impl.cpp:486-497 | Creating or deleting a role changes nobody's loaded keys |
| Coherence.DeletePermCoherentIff | src/admin_service_impl.cpp:519-530 | DeletePermission leaves the cache right exactly when no unexpired entry of the app lists the permission |
| Coherence.DeleteAppCoherentIff | src/admin_service_impl.cpp:144-155 | DeleteApp leaves the cache right exactly when every unexpired entry of the app is empty |
| Coherence.DeletesLeaveStaleEntries | src/admin_service_impl.cpp:519-530 | A concrete state in which each of the two leaves a wrong entry |
| Coherence.CoherenceReturns | src/admin_service_impl.cpp:519-530 | In every run of non-overlapping requests, the two exceptions included, entries put after the last of them are exact, and once a TTL has passed since it all unexpired entries are |
| Coherence.HorizonIsLastDelete | src/admin_service_impl.cpp:519-530 | The moment from which all entries are right again is a TTL after the last such deletion |
| Staleness.MissLoads | src/auth_service_impl.cpp:46-55 | A Check that misses may load any part of the join, and touches no entry but an expired one of its own |
| Staleness.AllowsAreBoundedlyStale | src/auth_service_impl.cpp:37-71 | In every interleaving, an allow is justified by a database state of the run no older than the TTL plus the load-to-put gap; failed loads only shrink the set |
| Staleness.DenialsAreBoundedlyStale | src/auth_service_impl.cpp:37-71 | A denial is as recent, and if its set was loaded completely a state without the permission justifies it |
| Staleness.StaleOnlyAfterARace | src/admin_service_impl.cpp:250-263 | An allow that misses a handler's write comes from a Check that loaded before the write and put after the invalidation |
| Staleness.RaceKeepsRevokedPermission | src/admin_service_impl.cpp:296-306 | For any two databases there is a run in which a handler invalidates and writes between a Check's load and its put, and the permission it took away is still allowed a whole TTL after the put |
| Staleness.RevokeCanLoseRace | src/admin_service_impl.cpp:296-306 | The same with a real RemoveRoleFromUser as the handler |
| Staleness.EveryRunIsSafe | src/auth_service_impl.cpp:46-67 | In every reachable state each entry is a subset of its own user's join at its load moment (all of it after a complete load), expires a TTL after its put, and has survived no matching invalidation |
| Staleness.HandlerMissedOnlyInARace | src/admin_service_impl.cpp:250-375 | The same for any of the four invalidating handlers and any user it affects |
| Staleness.PrefixMissedOnlyInARace | src/admin_service_impl.cpp:338-375 | The same for an invalidation of the app's prefix |
| Staleness.InvalidationIsExact | src/admin_service_impl.cpp:250-375 | A handler's invalidation removes the entries of exactly the users it affects and leaves the others as they are |
| Staleness.PrefixLeavesNoUser | include/local_cache.h:49-58 | No entry of any of the app's users survives an invalidation of its prefix, whatever the app code |
| Staleness.HandlerIsServed | src/admin_service_impl.cpp:250-263 | Uninterrupted, a handler's two steps are the request of the sequential model |
| Staleness.HitIsServed | src/auth_service_impl.cpp:41-44 | Uninterrupted, a Check that hits answers from the entry and changes nothing |
| Staleness.MissIsServed | src/auth_service_impl.cpp:46-70 | Uninterrupted, a Check that misses and loads completely puts and answers what the sequential model does |
| Deployment.AllowsAreDefinedInTheApp | src/auth_service_impl.cpp:37-71 | With DAO calls interleaving statement by statement under the cache, every allow, cached or not, is for a permission that at a recent moment was defined in the requested app and granted through a role created in it |
| Deployment.CallsRunAlone | src/permission_dao.cpp:525-637 | In the composed machine the tables go through exactly the run of the statements alone |
| Deployment.EveryRunIsSafe | src/permission_dao.cpp:525-637 | In every such run the tables' invariant holds at every moment the cache ever loaded from |
| Services.AuthService.Check | src/auth_service_impl.cpp:21-99 | Answers membership in the cached or freshly loaded set, puts exactly what it loaded, and explains denials as Explain does; an uncached denial's role lists are disjoint |
| Services.AuthService.Load | src/auth_service_impl.cpp:51-55 | The set built is within the user's join, and equal to it when the load is complete |
| Services.AuthService.CoherentCheck | src/auth_service_impl.cpp:37-71 | On a coherent cache, Check answers what the database holds and leaves the cache coherent |
| Services.AuthService.BatchCheck | src/auth_service_impl.cpp:101-149 | The i-th result repeats the i-th item and answers it by the COUNT join; an incomplete request fails |
| Services.AgentCheck | src/auth_agent_impl.cpp:34-75 | Allows iff complete, undisturbed and granted; explains denials as Explain does, and a true denial's current and suggested roles have nothing in common |
| Services.Explain | src/auth_agent_impl.cpp:54-74 | The reason is the first of app, permission and roles that is missing; the lists are all the user's roles and all the granting roles, each once, part of them if a query fails, and disjoint on a true denial |
| Services.CachedAndUncachedAgree | src/auth_service_impl.cpp:69-71 | With a coherent cache, a hit answers what the agent's COUNT join answers for an enabled app |
| Services.AdminService.ValidateToken | src/admin_service_impl.cpp:19-39 | Finds the unexpired session of the bearer token, if its username is not empty |
| Services.AdminService.Handle | src/admin_service_impl.cpp:236-280 | Unauthorized requests change neither tables nor permission cache; authorized ones invalidate, then run whole or leave no trace, and write exactly on success one audit row, which names the operator and reads back as the operation |
| Services.AdminService.CoherentHandle | src/admin_service_impl.cpp:236-497 | A handler run to its end leaves the cache coherent, whatever fails on the way, unless it deletes a permission or an app, and does what the sequential model's request does |
| Services.AdminService.Login | src/admin_service_impl.cpp:768-827 | A session is stored exactly for a found user whose password hashes to the stored hash, and expires a session TTL later |
| Services.LoginAuthorizes | src/admin_service_impl.cpp:26-39 | A stored token authorizes, as its user, exactly the requests that bear it until it expires |
| Services.LoginLeavesOthers | src/admin_service_impl.cpp:26-39 | A login changes nothing for other headers, and only a bearer header authorizes |
| Audit.RowTellsOf | src/admin_service_impl.cpp:269-274 | The row a handler writes names operator and app, and its action, types and ids read back as the operation |
| Audit.OnlyRowTellsOf | src/admin_service_impl.cpp:269-274 | It is the only row that does |
| Audit.RowIdentifiesDeed | src/admin_service_impl.cpp:269-274 | By one operator, two operations leave the same audit row iff they differ in nothing that is logged |
| Sessions.AuditRowsAreTraceable | src/admin_service_impl.cpp:815-820 | In every interleaving each audit row names a console user with a login at most the session TTL before that request's token check |
| Sessions.AuditMatchesSuccesses | src/admin_service_impl.cpp:263-279 | Audit calls and successful mutations correspond one to one, and written rows never outnumber successes |
| Sessions.HandledAtOnce | src/admin_service_impl.cpp:236-280 | Uninterrupted, a request without a good session does nothing; with one, a successful mutation is called for once and its row written unless that fails |
| Sessions.LoginIsKept | src/admin_service_impl.cpp:815-820 | A login's token finds its user's session until the session TTL has passed |
| Pool.GuardTakes | src/permission_dao.cpp:91-92 | With connections idle the longest idle one is taken and none is opened |
| Pool.GuardReplaces | src/permission_dao.cpp:94-113 | A connection gone bad is replaced, or its slot given up and the operation over |
| Pool.GuardOpens | src/permission_dao.cpp:65-81 | With none idle and fewer than 50, one is opened; if that fails everything is as before |
| Pool.GuardWaits | src/permission_dao.cpp:83-89 | With none idle and 50 out, the thread waits, until it times out with everything as before or takes what a release brought |
| Pool.GuardReturns | include/permission_dao.h:250-252 | The connection goes to the back of the queue and the thread is back where it was |
| Pool.PoolIsSound | src/permission_dao.cpp:62-123 | In every interleaving the counter is the idle connections plus those held plus reserved slots, within 0..50, positive before every decrement; no connection has two owners; at rest the counter is the idle count |
| Pool.EveryRunConserves | include/permission_dao.h:245-259 | Every run of calls, nested as the operations call one another, conserves counter, ownership and one connection per guard of each thread's call stack |
| Dao.NeedsItsGuards | src/permission_dao.cpp:253-909 | An operation of the admin service can fail for want of a connection, and for want of getAppId, exactly when the pool's call graph gives it a guard, and a nested call |
| Pool.UnguardedDelegates | src/permission_dao.cpp:995-997 | An operation without a guard reaches the database only through one with a guard, and what an operation calls calls nothing |
| Pool.GuardsNestTwice | src/permission_dao.cpp:461-468 | A call stack of DAO operations holds at most two guards, because what an operation calls calls nothing |
| Pool.WaitReachableIff | src/permission_dao.cpp:66-89 | The wait branch can be reached exactly when more than 25 threads share one DAO |
| Pool.FewThreadsNeverWait | include/permission_dao.h:25-27 | With at most 25 threads no run waits, failed creates and reconnects included |
| Pool.ManyThreadsCanWait | src/permission_dao.cpp:461-468 | With 26 or more, nested guards can exhaust the pool |
| Pool.ConnectionPool.constructor | src/permission_dao.cpp:20-27 | Keeps the connections that came up of five attempts and counts them |
| Pool.ConnectionPool.EnterSection | src/permission_dao.cpp:62-92 | Reserves a slot, takes the front connection, or waits, as the interleaved model's step does |
| Pool.ConnectionPool.ReleaseConnection | src/permission_dao.cpp:118-123 | Queues the connection behind the idle ones and leaves the counter alone |
| Binding.BuildUpdate | src/permission_dao.cpp:288-326 | However the parameters are split by type, each column of the UPDATE is assigned its own value |
| Binding.BuildWhere | src/permission_dao.cpp:389-421 | The assembled WHERE clause with its parameters bound selects exactly the rows the filter describes |
| Binding.FiltersCombine | src/permission_dao.cpp:394-399 | The status filter keeps the rows of exactly that status among those the name filter keeps; no filter keeps every row |
| Binding.NameFilterIsSubstringIff | src/permission_dao.cpp:407 | The filter finds exactly the apps whose name contains the given one if and only if that has no wildcard and no backslash |
| Paging.ListApps | src/permission_dao.cpp:380-444 | The rows LIMIT and a wrapped 32-bit OFFSET cut from the filtered ids in descending order, and the total |
| Paging.HandleListApps | src/admin_service_impl.cpp:204-217 | With the defaults applied and at most 2^31 matches, the page meant and the exact total |
| Paging.PagesPartition | src/permission_dao.cpp:401-424 | Pages 1 to ceil(total/size) concatenate to the whole list, each app once, newest first |
| Paging.DescendingUnique | src/permission_dao.cpp:401 | The order is determined by the table, so pages of separate calls fit together |
| Paging.PagesFit | src/permission_dao.cpp:424 | None of those pages overflows the 32-bit offset |
| Paging.OffsetFits | src/permission_dao.cpp:424 | The offset is the 32-bit number congruent to the product |
| Paging.PageAsMeantIff | src/permission_dao.cpp:424 | For any page, what comes back is what was meant iff the product fits or wraps to where no row is |

## Left out

- Paging by `created_at` (`getRoleUsers`, `listUserRoles`, `listAuditLogs`): ties make the order unstable, and `listUserRoles` counts users its data query can drop.
- `listPermissions`, `getApp`: they read one table.
- Columns no decision, listing or page depends on: app secrets, role names, role and permission descriptions, `is_default`, timestamps, the surrogate ids of link rows and `resource_id`.
- Dao.PermissionDAO.UpdateRole: changes nothing here, because none of the columns it writes is part of the model.
- Services.AdminService.Handle: is one method for thirteen handlers that share its steps; the GET handlers, response texts and numeric codes are not modelled.
- Binding.BuildWhere: LIKE is modelled without collation.
- Services.AdminService.Login: `crypt` is a parameter and the token an arbitrary string; that tokens do not collide is not assumed.
- The two services own separate DAOs over one database; the classes here share one `PermissionDAO` object, and the pool, which is per DAO, is modelled apart from it.
- A statement that commits although its reply is lost.
- Fairness and liveness of the pool's timed wait: a slot freed by a failed connect notifies nobody.
- bRPC controllers, HTTP headers beyond the bearer token, query-string fallbacks, logging, configuration, replication, the command-line tools and the seed rows.
