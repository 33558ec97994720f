/**
 * The permission cache when requests overlap: every Check is a cache lookup, a load and a put, every
 * handler an invalidation and some writes, and all of these steps, from any number of threads,
 * interleave.  Writes are arbitrary changes of the database, so the bound holds whatever commits.
 *
 * The state keeps every moment of the run.  `src` and `put` are the moments a set was loaded and put,
 * `full` whether it was the whole join; they are bookkeeping that no step reads.
 */
module Staleness {
  import opened Tables
  import opened Decisions
  import opened Text
  import History
  import Commands
  import TtlCache
  import Coherence

  datatype Removal = Nothing | Key(key: string) | Prefix(prefix: string)

  predicate Hits(r: Removal, key: string) {
    match r
    case Nothing => false
    case Key(k) => k == key
    case Prefix(p) => p <= key
  }

  /** The clock, the database and what was just invalidated. */
  datatype Moment = Moment(now: int, db: DB, removed: Removal)

  datatype Ask = Ask(app: string, user: string, perm: string)

  /** A loaded set, the moment of the load, and whether the load was complete. */
  datatype Known = Known(perms: set<string>, src: nat, full: bool)

  datatype Stored = Stored(known: Known, expireAt: int, app: string, user: string, put: nat)

  datatype Pc =
    | Idle
    | Missed(ask: Ask)
    | Loaded(ask: Ask, known: Known)

  datatype Answer = Answer(ask: Ask, allowed: bool, hit: bool, src: nat, full: bool, put: nat, at: nat)

  datatype State = State(
    ttl: int, hist: seq<Moment>, cache: map<string, Stored>, pcs: map<nat, Pc>, answers: seq<Answer>)
  {
    function Pc(t: nat): Pc { if t in pcs then pcs[t] else Idle }
  }

  datatype Event =
    | Tick(d: nat)
    | Write(db: DB)
    | Invalidate(removed: Removal)
    | Lookup(t: nat, ask: Ask)
    | Load(t: nat, perms: set<string>)
    | Put(t: nat)
    | Abort(t: nat)

  function Start(ttl: int, now: int, db: DB): State {
    State(ttl, [Moment(now, db, Nothing)], map[], map[], [])
  }

  function Answered(ask: Ask, hit: bool, known: Known, put: nat, at: nat): Answer {
    Answer(ask, ask.perm in known.perms, hit, known.src, known.full, put, at)
  }

  function KeyOf(a: Ask): string { CacheKey(a.app, a.user) }

  /** What getUserPermissions would load for the request. */
  function Join(db: DB, a: Ask): set<string> { UserPermKeys(db, a.app, a.user) }

  /** The next moment, without the entries it invalidates. */
  function Then(s: State, m: Moment): State {
    s.(hist := s.hist + [m], cache := map k | k in s.cache && !Hits(m.removed, k) :: s.cache[k])
  }

  function Do(s: State, e: Event): State
    requires s.hist != []
    ensures Do(s, e).hist != []
  {
    var n := |s.hist| - 1;
    var cur := s.hist[n];
    match e
    case Tick(d) => Then(s, Moment(cur.now + d, cur.db, Nothing))
    case Write(db) => Then(s, Moment(cur.now, db, Nothing))
    case Invalidate(r) => Then(s, Moment(cur.now, cur.db, r))
    case Lookup(t, ask) =>
      if !s.Pc(t).Idle? || !Free(COLON, ask.app) then s
      else if KeyOf(ask) in s.cache && cur.now <= s.cache[KeyOf(ask)].expireAt then
        var e := s.cache[KeyOf(ask)];
        s.(answers := s.answers + [Answered(ask, true, e.known, e.put, n)])
      else s.(cache := s.cache - {KeyOf(ask)}, pcs := s.pcs[t := Missed(ask)])
    case Load(t, perms) =>
      // A load that fails, or stops half way, yields fewer keys than the join.
      if s.Pc(t).Missed? && perms <= Join(cur.db, s.Pc(t).ask)
      then s.(pcs := s.pcs[t := Loaded(s.Pc(t).ask, Known(perms, n, perms == Join(cur.db, s.Pc(t).ask)))]) else s
    case Put(t) =>
      if s.Pc(t).Loaded? then
        var pc := s.Pc(t);
        s.(cache := s.cache[KeyOf(pc.ask) := Stored(pc.known, cur.now + s.ttl, pc.ask.app, pc.ask.user, n)],
           pcs := s.pcs[t := Idle],
           answers := s.answers + [Answered(pc.ask, false, pc.known, n, n)])
      else s
    case Abort(t) => s.(pcs := s.pcs[t := Idle])
  }

  function Run(s: State, es: seq<Event>): State
    requires s.hist != []
    decreases |es|
  {
    if es == [] then s else Run(Do(s, es[0]), es[1..])
  }

  // ---- what handlers remove ----------------------------------------------------------------------------

  function RemovalOf(c: Commands.Command): Removal {
    match c
    case Grant(code, user, _) => Key(CacheKey(code, user))
    case Revoke(code, user, _) => Key(CacheKey(code, user))
    case AddPermToRole(code, _, _) => Prefix(AppPrefix(code))
    case RemovePermFromRole(code, _, _) => Prefix(AppPrefix(code))
    case _ => Nothing
  }

  /** After a handler's invalidation no entry of a user it affects is left, and every other entry is. */
  lemma InvalidationIsExact(s: State, c: Commands.Command, app: string, user: string)
    requires s.hist != [] && Free(COLON, app)
    requires (c.AddPermToRole? || c.RemovePermFromRole? || c.Grant? || c.Revoke?) ==> Free(COLON, c.code)
    ensures var s', key := Do(s, Invalidate(RemovalOf(c))), CacheKey(app, user);
      && (key in s'.cache <==> key in s.cache && !Coherence.Covers(c, app, user))
      && (key in s'.cache ==> s'.cache[key] == s.cache[key])
  {
    if c.AddPermToRole? || c.RemovePermFromRole? {
      PrefixIsApp(c.code, app, user);
    } else if c.Grant? || c.Revoke? {
      CacheKeyInjective(app, user, c.code, c.user);
    }
  }

  /** Whatever the app code, no entry of the app's users survives an invalidation of its prefix. */
  lemma PrefixLeavesNoUser(s: State, app: string, user: string)
    requires s.hist != []
    ensures CacheKey(app, user) !in Do(s, Invalidate(Prefix(AppPrefix(app)))).cache
  {
    assert CacheKey(app, user)[..|app| + 1] == AppPrefix(app);
  }

  // ---- requests that nothing interrupts ----------------------------------------------------------------

  /** The cache without the bookkeeping. */
  function Contents(cache: map<string, Stored>): Coherence.PermCache {
    map k | k in cache :: TtlCache.Entry(cache[k].known.perms, cache[k].expireAt)
  }

  function Now(s: State): Moment
    requires s.hist != []
  {
    s.hist[|s.hist| - 1]
  }

  /** The same state for requests that do not overlap. */
  ghost function Still(s: State, w: History.World): Coherence.System
    requires s.hist != []
  {
    Coherence.System(w, Contents(s.cache), Now(s).now, s.ttl)
  }

  lemma PassingTime(s: State, d: nat)
    requires s.hist != []
    ensures var s' := Do(s, Tick(d));
      s'.cache == s.cache && s'.pcs == s.pcs && s'.answers == s.answers && s'.ttl == s.ttl
      && Now(s') == Moment(Now(s).now + d, Now(s).db, Nothing)
  {
  }

  lemma InvalidationIsServed(s: State, c: Commands.Command)
    requires s.hist != []
    ensures var s1 := Do(s, Invalidate(RemovalOf(c)));
      && Contents(s1.cache) == Coherence.Invalidated(Contents(s.cache), c)
      && s1.ttl == s.ttl && Now(s1).now == Now(s).now
  {
  }

  lemma WriteIsServed(s: State, db: DB)
    requires s.hist != []
    ensures var s' := Do(s, Write(db));
      s'.cache == s.cache && s'.ttl == s.ttl && Now(s').now == Now(s).now && Now(s').db == db
  {
  }

  /** A handler's invalidation and write, uninterrupted, are the request served at once. */
  lemma HandlerIsServed(s: State, w: History.World, c: Commands.Command)
    requires s.hist != [] && w.db == Now(s).db
    ensures var w' := Commands.Effect(w, c);
      var s' := Do(Do(s, Invalidate(RemovalOf(c))), Write(w'.db));
      Still(s', w') == Coherence.Serve(Still(s, w), Coherence.Managing(c, true, Now(s).now)) && Now(s').db == w'.db
  {
    InvalidationIsServed(s, c);
    WriteIsServed(Do(s, Invalidate(RemovalOf(c))), Commands.Effect(w, c).db);
  }

  /** A Check that finds an entry: no step but the lookup, no change, and the answer is the entry's. */
  lemma HitIsServed(s: State, w: History.World, t: nat, ask: Ask)
    requires s.hist != [] && w.db == Now(s).db && s.Pc(t).Idle? && Free(COLON, ask.app)
    requires TtlCache.Lookup(Contents(s.cache), KeyOf(ask), Now(s).now).Some?
    ensures var s' := Do(s, Lookup(t, ask));
      && Still(s', w) == Coherence.Serve(Still(s, w), Coherence.Asking(ask.app, ask.user, Now(s).now, Now(s).now))
      && |s'.answers| == |s.answers| + 1 && s'.answers[|s.answers|].ask == ask && s'.answers[|s.answers|].hit
      && s'.answers[|s.answers|].allowed
         == (ask.perm in TtlCache.Lookup(Contents(s.cache), KeyOf(ask), Now(s).now).value)
  {
  }

  /** A Check that does not, up to its load of any part of the join: nothing but an expired entry is gone. */
  lemma MissLoads(s: State, t: nat, ask: Ask, perms: set<string>)
    requires s.hist != [] && s.Pc(t).Idle? && Free(COLON, ask.app) && perms <= Join(Now(s).db, ask)
    requires TtlCache.Lookup(Contents(s.cache), KeyOf(ask), Now(s).now).None?
    ensures var s2 := Do(Do(s, Lookup(t, ask)), Load(t, perms));
      && s2.Pc(t) == Loaded(ask, Known(perms, |s.hist| - 1, perms == Join(Now(s).db, ask)))
      && s2.hist == s.hist && s2.answers == s.answers && s2.ttl == s.ttl
      && Contents(s2.cache) == TtlCache.Evicted(Contents(s.cache), KeyOf(ask), Now(s).now)
  {
  }

  lemma PutIsServed(s: State, t: nat, ask: Ask, known: Known)
    requires s.hist != [] && s.Pc(t) == Loaded(ask, known)
    ensures var s' := Do(s, Put(t));
      && s'.Pc(t).Idle? && s'.hist == s.hist && s'.ttl == s.ttl
      && s'.answers == s.answers + [Answered(ask, false, known, |s.hist| - 1, |s.hist| - 1)]
      && Contents(s'.cache) == Contents(s.cache)[KeyOf(ask) := TtlCache.Entry(known.perms, Now(s).now + s.ttl)]
  {
  }

  /** ... and put `d` later, the whole Check served at once. */
  lemma MissIsServed(s: State, w: History.World, t: nat, ask: Ask, d: nat)
    requires s.hist != [] && w.db == Now(s).db && s.Pc(t).Idle? && Free(COLON, ask.app)
    requires TtlCache.Lookup(Contents(s.cache), KeyOf(ask), Now(s).now).None?
    ensures var s' := Do(Do(Do(Do(s, Lookup(t, ask)), Load(t, Join(w.db, ask))), Tick(d)), Put(t));
      && Still(s', w) == Coherence.Serve(Still(s, w), Coherence.Asking(ask.app, ask.user, Now(s).now, Now(s).now + d))
      && s'.Pc(t).Idle? && |s'.answers| == |s.answers| + 1
      && var a := s'.answers[|s.answers|];
         a.ask == ask && !a.hit && a.full && a.allowed == (ask.perm in Join(w.db, ask))
  {
    MissLoads(s, t, ask, Join(w.db, ask));
    var s2 := Do(Do(s, Lookup(t, ask)), Load(t, Join(w.db, ask)));
    PassingTime(s2, d);
    PutIsServed(Do(s2, Tick(d)), t, ask, Known(Join(w.db, ask), |s.hist| - 1, true));
  }

  /** A Check that gives up leaves no entry behind, and its thread idle. */
  lemma AbortedCheckPutsNothing(s: State, t: nat, ask: Ask, perms: set<string>)
    requires s.hist != [] && s.Pc(t).Idle?
    ensures var s' := Do(Do(Do(s, Lookup(t, ask)), Load(t, perms)), Abort(t));
      && s'.Pc(t).Idle? && Now(s') == Now(s)
      && forall k :: k in s'.cache ==> k in s.cache && s'.cache[k] == s.cache[k]
  {
  }

  // ---- the invariant -------------------------------------------------------------------------------

  predicate Monotone(hist: seq<Moment>) {
    forall i, j :: 0 <= i < j < |hist| ==> hist[i].now <= hist[j].now
  }

  /** The set was no more than the user's join when it was loaded, and no less if the load was complete. */
  predicate FromJoin(hist: seq<Moment>, app: string, user: string, k: Known) {
    && k.src < |hist| && k.perms <= UserPermKeys(hist[k.src].db, app, user)
    && (k.full ==> k.perms == UserPermKeys(hist[k.src].db, app, user))
  }

  predicate Untouched(hist: seq<Moment>, key: string, after: nat, upTo: nat) {
    forall m :: after < m <= upTo && m < |hist| ==> !Hits(hist[m].removed, key)
  }

  predicate StoredOk(ttl: int, hist: seq<Moment>, key: string, e: Stored) {
    && key == CacheKey(e.app, e.user) && Free(COLON, e.app)
    && e.known.src <= e.put < |hist|
    && FromJoin(hist, e.app, e.user, e.known)
    && e.expireAt == hist[e.put].now + ttl
    && Untouched(hist, key, e.put, |hist|)
  }

  predicate PcOk(hist: seq<Moment>, pc: Pc) {
    match pc
    case Idle => true
    case Missed(ask) => Free(COLON, ask.app)
    case Loaded(ask, known) => Free(COLON, ask.app) && FromJoin(hist, ask.app, ask.user, known)
  }

  predicate AnswerOk(ttl: int, hist: seq<Moment>, a: Answer) {
    && a.src <= a.put <= a.at < |hist|
    && (a.allowed ==> a.ask.perm in Join(hist[a.src].db, a.ask))
    && (!a.allowed && a.full ==> a.ask.perm !in Join(hist[a.src].db, a.ask))
    && (a.hit ==> hist[a.at].now <= hist[a.put].now + ttl)
    && Untouched(hist, KeyOf(a.ask), a.put, a.at)
  }

  ghost predicate Safe(s: State) {
    && s.hist != [] && Monotone(s.hist)
    && (forall k :: k in s.cache ==> StoredOk(s.ttl, s.hist, k, s.cache[k]))
    && (forall t :: t in s.pcs ==> PcOk(s.hist, s.pcs[t]))
    && (forall i :: 0 <= i < |s.answers| ==> AnswerOk(s.ttl, s.hist, s.answers[i]))
  }

  /** A new moment leaves what was recorded true; entries survive unless it invalidates them. */
  lemma MomentKeepsSafe(s: State, m: Moment)
    requires Safe(s) && s.hist[|s.hist| - 1].now <= m.now
    ensures Safe(Then(s, m))
  {
    var hist := s.hist + [m];
    forall k | k in s.cache && !Hits(m.removed, k) ensures StoredOk(s.ttl, hist, k, s.cache[k]) {
      assert StoredOk(s.ttl, s.hist, k, s.cache[k]);
    }
    forall t | t in s.pcs ensures PcOk(hist, s.pcs[t]) {
      assert PcOk(s.hist, s.pcs[t]);
    }
    forall i | 0 <= i < |s.answers| ensures AnswerOk(s.ttl, hist, s.answers[i]) {
      assert AnswerOk(s.ttl, s.hist, s.answers[i]);
    }
  }

  lemma LookupKeepsSafe(s: State, t: nat, ask: Ask)
    requires Safe(s)
    ensures Safe(Do(s, Lookup(t, ask)))
  {
    var s' := Do(s, Lookup(t, ask));
    if s'.answers != s.answers {
      var e := s.cache[KeyOf(ask)];
      assert StoredOk(s.ttl, s.hist, KeyOf(ask), e);
      CacheKeyInjective(ask.app, ask.user, e.app, e.user);
      assert AnswerOk(s.ttl, s.hist, Answered(ask, true, e.known, e.put, |s.hist| - 1));
    }
  }

  /** What a Put stores and answers is as recent as what was loaded. */
  lemma PutIsOk(s: State, ask: Ask, known: Known)
    requires Safe(s) && PcOk(s.hist, Loaded(ask, known))
    ensures var n := |s.hist| - 1;
      && StoredOk(s.ttl, s.hist, KeyOf(ask), Stored(known, s.hist[n].now + s.ttl, ask.app, ask.user, n))
      && AnswerOk(s.ttl, s.hist, Answered(ask, false, known, n, n))
  {
  }

  lemma PutKeepsSafe(s: State, t: nat)
    requires Safe(s)
    ensures Safe(Do(s, Put(t)))
  {
    if s.Pc(t).Loaded? {
      assert PcOk(s.hist, s.Pc(t));
      PutIsOk(s, s.Pc(t).ask, s.Pc(t).known);
    }
  }

  lemma LoadKeepsSafe(s: State, t: nat, perms: set<string>)
    requires Safe(s)
    ensures Safe(Do(s, Load(t, perms)))
  {
    if s.Pc(t).Missed? {
      assert PcOk(s.hist, s.Pc(t));
    }
  }

  lemma TickKeepsSafe(s: State, d: nat)
    requires Safe(s)
    ensures Safe(Do(s, Tick(d)))
  {
    var cur := s.hist[|s.hist| - 1];
    var later := Moment(cur.now + d, cur.db, Nothing);
    assert Do(s, Tick(d)) == Then(s, later);
    MomentKeepsSafe(s, later);
  }

  lemma WriteKeepsSafe(s: State, db: DB)
    requires Safe(s)
    ensures Safe(Do(s, Write(db)))
  {
    MomentKeepsSafe(s, Moment(s.hist[|s.hist| - 1].now, db, Nothing));
  }

  lemma InvalidateKeepsSafe(s: State, r: Removal)
    requires Safe(s)
    ensures Safe(Do(s, Invalidate(r)))
  {
    MomentKeepsSafe(s, Moment(s.hist[|s.hist| - 1].now, s.hist[|s.hist| - 1].db, r));
  }

  lemma AbortKeepsSafe(s: State, t: nat)
    requires Safe(s)
    ensures Safe(Do(s, Abort(t)))
  {
  }

  lemma StepKeepsSafe(s: State, e: Event)
    requires Safe(s)
    ensures Safe(Do(s, e))
  {
    match e
    case Tick(d) => TickKeepsSafe(s, d);
    case Write(db) => WriteKeepsSafe(s, db);
    case Invalidate(r) => InvalidateKeepsSafe(s, r);
    case Lookup(t, ask) => LookupKeepsSafe(s, t, ask);
    case Load(t, perms) => LoadKeepsSafe(s, t, perms);
    case Put(t) => PutKeepsSafe(s, t);
    case Abort(t) => AbortKeepsSafe(s, t);
  }

  lemma {:induction false} EveryRunIsSafe(s: State, es: seq<Event>)
    requires Safe(s)
    ensures Safe(Run(s, es))
    decreases |es|
  {
    if es != [] {
      StepKeepsSafe(s, es[0]);
      EveryRunIsSafe(Do(s, es[0]), es[1..]);
    }
  }

  lemma {:induction false} TtlFixed(s: State, es: seq<Event>)
    requires s.hist != []
    ensures Run(s, es).ttl == s.ttl
    decreases |es|
  {
    if es != [] { TtlFixed(Do(s, es[0]), es[1..]); }
  }

  // ---- what the invariant means ------------------------------------------------------------------------

  /** The answer's set is from a moment of the run no older than the TTL plus its load-to-put gap. */
  predicate Recent(s: State, a: Answer) {
    && a.src <= a.put <= a.at < |s.hist|
    && s.hist[a.src].now <= s.hist[a.at].now
    && (a.hit ==> s.hist[a.src].now >= s.hist[a.at].now - s.ttl - (s.hist[a.put].now - s.hist[a.src].now))
  }

  lemma AnswersAreRecent(ttl: int, now: int, db: DB, es: seq<Event>, i: nat)
    requires i < |Run(Start(ttl, now, db), es).answers|
    ensures var s := Run(Start(ttl, now, db), es);
      s.ttl == ttl && AnswerOk(ttl, s.hist, s.answers[i]) && Recent(s, s.answers[i])
  {
    EveryRunIsSafe(Start(ttl, now, db), es);
    TtlFixed(Start(ttl, now, db), es);
    var s := Run(Start(ttl, now, db), es);
    assert AnswerOk(s.ttl, s.hist, s.answers[i]);
  }

  /**
   * Bounded staleness.  Any allow, in any interleaving, is justified by a recent database state of the
   * run in which the user's join contained the permission.
   */
  lemma AllowsAreBoundedlyStale(ttl: int, now: int, db: DB, es: seq<Event>, i: nat)
    requires i < |Run(Start(ttl, now, db), es).answers|
    requires Run(Start(ttl, now, db), es).answers[i].allowed
    ensures var s := Run(Start(ttl, now, db), es); var a := s.answers[i];
      s.ttl == ttl && Recent(s, a) && a.ask.perm in Join(s.hist[a.src].db, a.ask)
  {
    AnswersAreRecent(ttl, now, db, es, i);
  }

  /** A denial is as recent, and a state without the permission justifies it if its set came from a complete load. */
  lemma DenialsAreBoundedlyStale(ttl: int, now: int, db: DB, es: seq<Event>, i: nat)
    requires i < |Run(Start(ttl, now, db), es).answers|
    requires !Run(Start(ttl, now, db), es).answers[i].allowed
    ensures var s := Run(Start(ttl, now, db), es); var a := s.answers[i];
      s.ttl == ttl && Recent(s, a) && (a.full ==> a.ask.perm !in Join(s.hist[a.src].db, a.ask))
  {
    AnswersAreRecent(ttl, now, db, es, i);
  }

  // ---- races -------------------------------------------------------------------------------------------

  /** At every moment from one to another the user's join lacks the permission asked about. */
  predicate Gone(s: State, a: Answer, since: nat) {
    forall m :: since <= m <= a.at && m < |s.hist| ==> a.ask.perm !in Join(s.hist[m].db, a.ask)
  }

  /**
   * A handler invalidates the key at moment `inv`, and its write is there from moment `done` on.  A later
   * allow that misses the write comes from a Check that loaded before the write and put after the
   * invalidation: one that raced with the handler.
   */
  lemma StaleOnlyAfterARace(ttl: int, now: int, db: DB, es: seq<Event>, i: nat, inv: nat, done: nat)
    requires i < |Run(Start(ttl, now, db), es).answers|
    requires var s := Run(Start(ttl, now, db), es); var a := s.answers[i];
      && inv <= done <= a.at < |s.hist| && Hits(s.hist[inv].removed, KeyOf(a.ask))
      && a.allowed && Gone(s, a, done)
    ensures var a := Run(Start(ttl, now, db), es).answers[i]; a.src < done && inv <= a.put
  {
    AnswersAreRecent(ttl, now, db, es, i);
  }

  /** In particular for a handler: any of the four that invalidate, and any user it affects. */
  lemma HandlerMissedOnlyInARace(
    ttl: int, now: int, db: DB, es: seq<Event>, i: nat, inv: nat, done: nat, c: Commands.Command)
    requires i < |Run(Start(ttl, now, db), es).answers|
    requires var s := Run(Start(ttl, now, db), es); var a := s.answers[i];
      && inv <= done <= a.at < |s.hist| && s.hist[inv].removed == RemovalOf(c)
      && Coherence.Covers(c, a.ask.app, a.ask.user) && a.allowed && Gone(s, a, done)
    ensures var a := Run(Start(ttl, now, db), es).answers[i]; a.src < done && inv <= a.put
  {
    var s := Run(Start(ttl, now, db), es);
    var ask := s.answers[i].ask;
    assert KeyOf(ask)[..|ask.app| + 1] == AppPrefix(ask.app);
    StaleOnlyAfterARace(ttl, now, db, es, i, inv, done);
  }

  /** ... or for the prefix of the app asked about, which is what the two link handlers remove. */
  lemma PrefixMissedOnlyInARace(ttl: int, now: int, db: DB, es: seq<Event>, i: nat, inv: nat, done: nat)
    requires i < |Run(Start(ttl, now, db), es).answers|
    requires var s := Run(Start(ttl, now, db), es); var a := s.answers[i];
      && inv <= done <= a.at < |s.hist| && s.hist[inv].removed == Prefix(a.ask.app + [':'])
      && a.allowed && Gone(s, a, done)
    ensures var a := Run(Start(ttl, now, db), es).answers[i]; a.src < done && inv <= a.put
  {
    var ask := Run(Start(ttl, now, db), es).answers[i].ask;
    assert KeyOf(ask)[..|ask.app| + 1] == AppPrefix(ask.app);
    StaleOnlyAfterARace(ttl, now, db, es, i, inv, done);
  }

  /**
   * The run's second answer is an allowing hit a whole TTL after its put.  At `inv` a handler removed the
   * key, and from `done` on the database is the one it wrote, without the permission; the answer's set was
   * loaded before the removal and put after the write.
   */
  ghost predicate RaceLost(s: State, ask: Ask, db0: DB, db1: DB, inv: nat, done: nat) {
    && |s.answers| == 2 && s.answers[1].ask == ask && s.answers[1].hit && s.answers[1].allowed
    && var a := s.answers[1];
      && a.src < inv < done <= a.put <= a.at < |s.hist|
      && s.hist[inv].removed == Key(KeyOf(ask))
      && (forall m :: 0 <= m < done ==> s.hist[m].db == db0)
      && (forall m :: done <= m < |s.hist| ==> s.hist[m].db == db1)
      && s.hist[a.at].now == s.hist[a.put].now + s.ttl
      && Gone(s, a, done)
  }

  /** The race is real: a handler that loses it leaves the old answer standing for a whole TTL. */
  lemma RaceKeepsRevokedPermission(db0: DB, db1: DB, ask: Ask, ttl: nat) returns (es: seq<Event>)
    requires Free(COLON, ask.app) && ask.perm in Join(db0, ask) && ask.perm !in Join(db1, ask)
    ensures RaceLost(Run(Start(ttl, 0, db0), es), ask, db0, db1, 1, 2)
  {
    es := RaceEvents(db0, db1, ask, ttl);
    RaceBeforeRevoke(db0, db1, ask, ttl);
    RaceRevoke(db0, db1, ask, ttl);
    RaceAfterRevoke(db0, db1, ask, ttl);
    Follow(RaceStates(db0, db1, ask, ttl), es);
  }

  /** In particular RemoveRoleFromUser can lose it, from a state in which one user holds one permission. */
  lemma RevokeCanLoseRace(ttl: nat) returns (es: seq<Event>, after: DB)
    ensures after == Commands.Effect(Coherence.HELD, Commands.Revoke("x", "u", "r")).db
    ensures RaceLost(Run(Start(ttl, 0, Coherence.HELD.db), es), Ask("x", "u", "k"), Coherence.HELD.db, after, 1, 2)
  {
    after := Coherence.HeldIsRevoked();
    es := RaceKeepsRevokedPermission(Coherence.HELD.db, after, Ask("x", "u", "k"), ttl);
  }

  function RaceEvents(db0: DB, db1: DB, ask: Ask, ttl: nat): seq<Event> {
    [Lookup(0, ask), Load(0, Join(db0, ask)), Invalidate(Key(KeyOf(ask))), Write(db1),
     Put(0), Tick(ttl), Lookup(0, ask)]
  }

  function RaceStates(db0: DB, db1: DB, ask: Ask, ttl: nat): seq<State> {
    var known := Known(Join(db0, ask), 0, true);
    var m0, m1 := Moment(0, db0, Nothing), Moment(0, db0, Key(KeyOf(ask)));
    var m2, m3 := Moment(0, db1, Nothing), Moment(ttl, db1, Nothing);
    var stored := map[KeyOf(ask) := Stored(known, ttl, ask.app, ask.user, 2)];
    var loaded, idle := map[0 := Loaded(ask, known)], map[0 := Idle];
    var first := Answered(ask, false, known, 2, 2);
    [Start(ttl, 0, db0),
     State(ttl, [m0], map[], map[0 := Missed(ask)], []),
     State(ttl, [m0], map[], loaded, []),
     State(ttl, [m0, m1], map[], loaded, []),
     State(ttl, [m0, m1, m2], map[], loaded, []),
     State(ttl, [m0, m1, m2], stored, idle, [first]),
     State(ttl, [m0, m1, m2, m3], stored, idle, [first]),
     State(ttl, [m0, m1, m2, m3], stored, idle, [first, Answered(ask, true, known, 2, 3)])]
  }

  lemma RaceBeforeRevoke(db0: DB, db1: DB, ask: Ask, ttl: nat)
    requires Free(COLON, ask.app)
    ensures var states, es := RaceStates(db0, db1, ask, ttl), RaceEvents(db0, db1, ask, ttl);
      Do(states[0], es[0]) == states[1] && Do(states[1], es[1]) == states[2]
  {
  }

  lemma RaceRevoke(db0: DB, db1: DB, ask: Ask, ttl: nat)
    ensures var states, es := RaceStates(db0, db1, ask, ttl), RaceEvents(db0, db1, ask, ttl);
      Do(states[2], es[2]) == states[3] && Do(states[3], es[3]) == states[4]
  {
  }

  lemma RaceAfterRevoke(db0: DB, db1: DB, ask: Ask, ttl: nat)
    requires Free(COLON, ask.app)
    ensures var states, es := RaceStates(db0, db1, ask, ttl), RaceEvents(db0, db1, ask, ttl);
      Do(states[4], es[4]) == states[5] && Do(states[5], es[5]) == states[6] && Do(states[6], es[6]) == states[7]
  {
  }

  /** A list of states, each the last one's successor, is the run. */
  lemma {:induction false} Follow(states: seq<State>, es: seq<Event>)
    requires |states| == |es| + 1 && forall i :: 0 <= i < |states| ==> states[i].hist != []
    requires forall i :: 0 <= i < |es| ==> Do(states[i], es[i]) == states[i + 1]
    ensures Run(states[0], es) == states[|es|]
  {
    if es != [] {
      assert forall i :: 0 <= i < |es| - 1 ==> states[1..][i] == states[i + 1] && es[1..][i] == es[i + 1];
      Follow(states[1..], es[1..]);
    }
  }
}
