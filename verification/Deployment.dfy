/**
 * The cache of overlapping Checks over the tables of overlapping DAO calls: the writes that Staleness
 * leaves arbitrary are the statements of StoreRuns, one at a time.
 */
module Deployment {
  import opened Tables
  import opened History
  import opened Decisions
  import Calls = StoreRuns
  import Checks = Staleness

  /** `worlds` keeps the tables, with their history, at every moment of the run; no step reads it. */
  datatype State = State(calls: Calls.State, checks: Checks.State, worlds: seq<World>)

  datatype Event =
    | Statement(call: Calls.Event)
    | Caching(step: Checks.Event)

  function Start(ttl: int, now: int): State {
    State(Calls.START, Checks.Start(ttl, now, EMPTY), [GENESIS])
  }

  /** A statement is the cache machine's write of what it leaves; the cache machine writes nothing else. */
  function Do(s: State, e: Event): State
    requires s.checks.hist != []
    ensures Do(s, e).checks.hist != []
  {
    match e
    case Statement(e) =>
      var calls := Calls.Do(s.calls, e);
      State(calls, Checks.Do(s.checks, Checks.Write(calls.w.db)), s.worlds + [calls.w])
    case Caching(e) =>
      if e.Write? then s
      else
        var checks := Checks.Do(s.checks, e);
        State(s.calls, checks, if checks.hist == s.checks.hist then s.worlds else s.worlds + [s.calls.w])
  }

  function Run(s: State, es: seq<Event>): State
    requires s.checks.hist != []
    decreases |es|
  {
    if es == [] then s else Run(Do(s, es[0]), es[1..])
  }

  /** The statements of a run. */
  function Statements(es: seq<Event>): seq<Calls.Event> {
    if es == [] then []
    else (if es[0].Statement? then [es[0].call] else []) + Statements(es[1..])
  }

  /** The two machines run as they do alone: the statements in their order, and each step of the cache. */
  lemma {:induction false} CallsRunAlone(s: State, es: seq<Event>)
    requires s.checks.hist != []
    ensures Run(s, es).calls == Calls.Run(s.calls, Statements(es))
    decreases |es|
  {
    if es != [] {
      CallsRunAlone(Do(s, es[0]), es[1..]);
      if es[0].Statement? {
        assert Statements(es)[1..] == Statements(es[1..]);
      } else {
        assert Statements(es) == Statements(es[1..]);
      }
    }
  }

  lemma ChecksStepAlone(s: State, call: Calls.Event, step: Checks.Event)
    requires s.checks.hist != []
    ensures Do(s, Statement(call)).checks == Checks.Do(s.checks, Checks.Write(Calls.Do(s.calls, call).w.db))
    ensures !step.Write? ==> Do(s, Caching(step)).checks == Checks.Do(s.checks, step)
  {
  }

  /** Every moment the cache machine remembers is a state of the tables that satisfies their invariant. */
  ghost predicate Recorded(worlds: seq<World>, hist: seq<Checks.Moment>) {
    |worlds| == |hist| && forall m :: 0 <= m < |worlds| ==> Inv(worlds[m]) && worlds[m].db == hist[m].db
  }

  ghost predicate Safe(s: State) {
    && Calls.Safe(s.calls) && Checks.Safe(s.checks)
    && Recorded(s.worlds, s.checks.hist) && s.worlds[|s.worlds| - 1] == s.calls.w
  }

  lemma RecordOneMore(worlds: seq<World>, hist: seq<Checks.Moment>, w: World, m: Checks.Moment)
    requires Recorded(worlds, hist) && Inv(w) && w.db == m.db
    ensures Recorded(worlds + [w], hist + [m])
  {
  }

  /** A step of a Check, of a handler's invalidation or of the clock adds at most a moment, and changes no table. */
  lemma CachingKeepsTables(s: Checks.State, e: Checks.Event)
    requires s.hist != [] && !e.Write?
    ensures var h := Checks.Do(s, e).hist;
      h == s.hist || (|h| == |s.hist| + 1 && h[..|s.hist|] == s.hist && h[|s.hist|].db == s.hist[|s.hist| - 1].db)
  {
  }

  lemma StatementKeepsSafe(s: State, e: Calls.Event)
    requires Safe(s)
    ensures Safe(Do(s, Statement(e))) && Do(s, Statement(e)).checks.ttl == s.checks.ttl
  {
    var w := Calls.Do(s.calls, e).w;
    Calls.StepKeepsSafe(s.calls, e);
    Checks.WriteKeepsSafe(s.checks, w.db);
    var h := Checks.Do(s.checks, Checks.Write(w.db)).hist;
    RecordOneMore(s.worlds, s.checks.hist, w, h[|h| - 1]);
  }

  lemma CachingKeepsSafe(s: State, e: Checks.Event)
    requires Safe(s) && !e.Write?
    ensures Safe(Do(s, Caching(e))) && Do(s, Caching(e)).checks.ttl == s.checks.ttl
  {
    Checks.StepKeepsSafe(s.checks, e);
    CachingKeepsTables(s.checks, e);
    var h, h' := s.checks.hist, Checks.Do(s.checks, e).hist;
    if h' != h {
      assert h' == h + [h'[|h|]];
      RecordOneMore(s.worlds, h, s.calls.w, h'[|h|]);
    }
  }

  lemma StepKeepsSafe(s: State, e: Event)
    requires Safe(s)
    ensures Safe(Do(s, e)) && Do(s, e).checks.ttl == s.checks.ttl
  {
    match e
    case Statement(call) => StatementKeepsSafe(s, call);
    case Caching(step) => if !step.Write? { CachingKeepsSafe(s, step); }
  }

  lemma {:induction false} EveryRunIsSafe(s: State, es: seq<Event>)
    requires Safe(s)
    ensures Safe(Run(s, es)) && Run(s, es).checks.ttl == s.checks.ttl
    decreases |es|
  {
    if es != [] {
      StepKeepsSafe(s, es[0]);
      EveryRunIsSafe(Do(s, es[0]), es[1..]);
    }
  }

  lemma StartIsSafe(ttl: int, now: int)
    ensures Safe(Start(ttl, now))
  {
    Calls.StartIsSafe();
  }

  /** The chain's permission is the one asked about, and it and the chain's role were created in the live app. */
  ghost predicate GrantedInApp(w: World, a: Checks.Answer, c: Chain) {
    && c in Chains(w.db, a.ask.app, a.ask.user)
    && c.1.permId in PermIds(w.db, a.ask.app, a.ask.perm)
    && c.1.roleId in w.born.roleApp && w.born.roleApp[c.1.roleId] == w.db.perms[c.1.permId].appId
  }

  /** The allow is from a recent moment at which such a chain existed. */
  ghost predicate Justified(s: State, a: Checks.Answer) {
    Checks.Recent(s.checks, a) && a.src < |s.worlds| && exists c :: GrantedInApp(s.worlds[a.src], a, c)
  }

  lemma JoinIsGranted(w: World, a: Checks.Answer)
    requires Inv(w) && a.ask.perm in Checks.Join(w.db, a.ask)
    ensures exists c :: GrantedInApp(w, a, c)
  {
    var c :| c in Chains(w.db, a.ask.app, a.ask.user) && w.db.perms[c.1.permId].key == a.ask.perm;
    JoinStaysInApp(w, a.ask.app, a.ask.user, c);
    assert LinkOk(w.born, c.1);
    assert GrantedInApp(w, a, c);
  }

  lemma AllowIsJustified(s: State, i: nat)
    requires Safe(s) && i < |s.checks.answers| && s.checks.answers[i].allowed
    ensures Justified(s, s.checks.answers[i])
  {
    var a := s.checks.answers[i];
    assert Checks.AnswerOk(s.checks.ttl, s.checks.hist, a);
    var w := s.worlds[a.src];
    assert Inv(w) && w.db == s.checks.hist[a.src].db;
    JoinIsGranted(w, a);
  }

  /**
   * Whatever overlaps and wherever calls fail, an allow, cached or not, is for a permission that at a
   * recent moment was defined in the requested app and granted to the user through a role created in it.
   */
  lemma AllowsAreDefinedInTheApp(ttl: int, now: int, es: seq<Event>, i: nat)
    requires i < |Run(Start(ttl, now), es).checks.answers|
    requires Run(Start(ttl, now), es).checks.answers[i].allowed
    ensures var s := Run(Start(ttl, now), es); s.checks.ttl == ttl && Justified(s, s.checks.answers[i])
  {
    StartIsSafe(ttl, now);
    EveryRunIsSafe(Start(ttl, now), es);
    AllowIsJustified(Run(Start(ttl, now), es), i);
  }
}
