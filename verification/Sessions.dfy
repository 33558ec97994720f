/**
 * Who the audit table names.  Logins, token checks, mutations and audit writes of any number of
 * requests interleave; the session cache is module TtlCache's.  `logins` and the `login` indices are
 * bookkeeping that no step reads, and so are `done`, the mutations that succeeded, and `called`, the
 * successes createAuditLog has been called for.
 */
module Sessions {
  import opened Basics
  import opened Commands
  import opened TtlCache
  import opened Audit

  datatype Login = Login(user: ConsoleUser, token: string, at: int)

  /** A mutating request between its steps. */
  datatype Pc =
    | Idle
    | Authorized(session: Session, c: Command, login: nat, checkedAt: int)
    | Mutated(session: Session, c: Command, login: nat, checkedAt: int, success: nat)

  /** A written row, with the login and the successful mutation it came from. */
  datatype Written = Written(row: AuditRow, login: nat, checkedAt: int, success: nat)

  datatype State = State(
    ttl: int, now: int, users: map<string, ConsoleUser>,
    sessions: Entries<(Session, nat)>, logins: seq<Login>, pcs: map<nat, Pc>,
    done: seq<Command>, called: seq<nat>, audit: seq<Written>)
  {
    function Pc(t: nat): Pc { if t in pcs then pcs[t] else Idle }
    function Go(t: nat, pc: Pc): State { this.(pcs := pcs[t := pc]) }
  }

  datatype Event =
    | Tick(d: nat)
    | LogIn(username: string, token: string)
    | Check(t: nat, token: string, c: Command)
    | Mutate(t: nat, ok: bool)
    | Log(t: nat, ok: bool)

  function Start(ttl: int, now: int, users: map<string, ConsoleUser>): State {
    State(ttl, now, users, map[], [], map[], [], [], [])
  }

  function Do(s: State, e: Event): State {
    match e
    case Tick(d) => s.(now := s.now + d)
    case LogIn(username, token) =>
      // The password has been verified; a token may collide with an older one.
      if username == "" || username !in s.users || s.users[username].id == -1 then s
      else
        var user := s.users[username];
        s.(sessions := s.sessions[token := Entry((SessionOf(user), |s.logins|), s.now + s.ttl)],
           logins := s.logins + [Login(user, token, s.now)])
    case Check(t, token, c) =>
      if !s.Pc(t).Idle? then s else
      var found := Lookup(s.sessions, token, s.now);
      var s' := s.(sessions := Evicted(s.sessions, token, s.now));
      if found.None? || found.value.0.username == "" then s'
      else s'.Go(t, Authorized(found.value.0, c, found.value.1, s.now))
    case Mutate(t, ok) =>
      var pc := s.Pc(t);
      if !pc.Authorized? then s
      else if !ok then s.Go(t, Idle)
      else s.Go(t, Mutated(pc.session, pc.c, pc.login, pc.checkedAt, |s.done|)).(done := s.done + [pc.c])
    case Log(t, ok) =>
      var pc := s.Pc(t);
      if !pc.Mutated? then s
      else
        var s' := s.Go(t, Idle).(called := s.called + [pc.success]);
        var written := Written(AuditOf(pc.session, pc.c), pc.login, pc.checkedAt, pc.success);
        if ok then s'.(audit := s.audit + [written]) else s'
  }

  function Run(s: State, es: seq<Event>): State
    decreases |es|
  {
    if es == [] then s else Run(Do(s, es[0]), es[1..])
  }

  // ---- a request that nothing interrupts ---------------------------------------------------------------

  /** It is refused without a good session; else its mutation, if it succeeds, is called for and perhaps written. */
  lemma HandledAtOnce(s: State, t: nat, token: string, c: Command, ok: bool, logged: bool)
    requires s.Pc(t).Idle?
    ensures var s' := Do(Do(Do(s, Check(t, token, c)), Mutate(t, ok)), Log(t, logged));
      var found := Lookup(s.sessions, token, s.now);
      && s'.Pc(t).Idle? && s'.sessions == Evicted(s.sessions, token, s.now)
      && (forall u :: u != t ==> s'.Pc(u) == s.Pc(u))
      && s'.logins == s.logins && s'.now == s.now
      && if found.Some? && found.value.0.username != "" && ok then
           && s'.done == s.done + [c] && s'.called == s.called + [|s.done|]
           && s'.audit == s.audit +
                if logged then [Written(AuditOf(found.value.0, c), found.value.1, s.now, |s.done|)] else []
         else s'.done == s.done && s'.called == s.called && s'.audit == s.audit
  {
  }

  /** A login is remembered, and its token is good until the session TTL has passed. */
  lemma LoginIsKept(s: State, username: string, token: string, d: nat)
    requires username != "" && username in s.users && s.users[username].id != -1
    ensures var s' := Do(Do(s, LogIn(username, token)), Tick(d));
      && s'.logins == s.logins + [Login(s.users[username], token, s.now)] && s'.now == s.now + d
      && Lookup(s'.sessions, token, s'.now) ==
           if d <= s.ttl then Some((SessionOf(s.users[username]), |s.logins|)) else None
  {
  }

  // ---- the invariant ---------------------------------------------------------------------------------------

  /** The session is the one a login recorded, and it was still good when checked. */
  predicate Traced(ttl: int, logins: seq<Login>, session: Session, login: nat, checkedAt: int) {
    && login < |logins| && session == SessionOf(logins[login].user) && session.username != ""
    && logins[login].at <= checkedAt <= logins[login].at + ttl
  }

  predicate EntryOk(s: State, e: Entry<(Session, nat)>) {
    && e.value.1 < |s.logins| && e.value.0 == SessionOf(s.logins[e.value.1].user)
    && s.logins[e.value.1].at <= s.now && e.expireAt == s.logins[e.value.1].at + s.ttl
  }

  /** A success whose audit call is still to come belongs to the thread that is about to make it. */
  predicate PcOk(s: State, pc: Pc) {
    && (pc.Idle? || Traced(s.ttl, s.logins, pc.session, pc.login, pc.checkedAt))
    && (pc.Mutated? ==> pc.success < |s.done| && s.done[pc.success] == pc.c && pc.success !in s.called)
  }

  predicate RowOk(s: State, w: Written) {
    && w.login < |s.logins| && w.success < |s.done|
    && w.row == AuditOf(SessionOf(s.logins[w.login].user), s.done[w.success])
    && Traced(s.ttl, s.logins, SessionOf(s.logins[w.login].user), w.login, w.checkedAt)
  }

  predicate Pending(s: State, success: nat) {
    exists t | t in s.pcs :: s.pcs[t].Mutated? && s.pcs[t].success == success
  }

  /** Each success is either called for, once, or pending in one thread. */
  ghost predicate Matched(s: State) {
    && Distinct(s.called) && (forall i :: 0 <= i < |s.called| ==> s.called[i] < |s.done|)
    && (forall k :: 0 <= k < |s.done| ==> k in s.called || Pending(s, k))
    && (forall t, u :: t in s.pcs && u in s.pcs && s.pcs[t].Mutated? && s.pcs[u].Mutated? && t != u ==>
          s.pcs[t].success != s.pcs[u].success)
  }

  /** Rows are written for distinct successes, in the order of the calls. */
  ghost predicate RowsCalled(s: State) {
    && (forall i :: 0 <= i < |s.audit| ==> RowOk(s, s.audit[i]) && s.audit[i].success in s.called)
    && (forall i, j :: 0 <= i < j < |s.audit| ==> s.audit[i].success != s.audit[j].success)
  }

  ghost predicate Safe(s: State) {
    && (forall token :: token in s.sessions ==> EntryOk(s, s.sessions[token]))
    && (forall t :: t in s.pcs ==> PcOk(s, s.pcs[t]))
    && (forall i :: 0 <= i < |s.logins| ==> s.logins[i].user in s.users.Values)
    && Matched(s) && RowsCalled(s)
  }

  /** Later logins and successes and a later clock leave what was traced traced. */
  lemma Forward(s: State, s': State)
    requires Safe(s) && s'.ttl == s.ttl && s.logins <= s'.logins && s.now <= s'.now && s.done <= s'.done
    ensures forall token :: token in s.sessions ==> EntryOk(s', s.sessions[token])
    ensures forall i :: 0 <= i < |s.audit| ==> RowOk(s', s.audit[i])
    ensures s'.called == s.called ==> forall t :: t in s.pcs ==> PcOk(s', s.pcs[t])
  {
    if s'.called == s.called {
      forall t | t in s.pcs ensures PcOk(s', s.pcs[t]) {
        assert PcOk(s, s.pcs[t]);
      }
    }
    forall i | 0 <= i < |s.audit| ensures RowOk(s', s.audit[i]) {
      assert RowOk(s, s.audit[i]);
    }
  }

  lemma TickKeepsSafe(s: State, d: nat)
    requires Safe(s)
    ensures Safe(Do(s, Tick(d)))
  {
    var s' := Do(s, Tick(d));
    Forward(s, s');
    assert forall k :: Pending(s, k) ==> Pending(s', k);
  }

  lemma LogInKeepsSafe(s: State, username: string, token: string)
    requires Safe(s)
    ensures Safe(Do(s, LogIn(username, token)))
  {
    var s' := Do(s, LogIn(username, token));
    Forward(s, s');
    assert forall k :: Pending(s, k) ==> Pending(s', k);
  }

  lemma CheckKeepsSafe(s: State, t: nat, token: string, c: Command)
    requires Safe(s)
    ensures Safe(Do(s, Check(t, token, c)))
  {
    var s' := Do(s, Check(t, token, c));
    Forward(s, s');
    if s.Pc(t).Idle? { StillPending(s, s', t); }
  }

  /** A step of a thread that has no audit call to make leaves the others' calls pending. */
  lemma StillPending(s: State, s': State, t: nat)
    requires !s.Pc(t).Mutated? && forall u :: u in s.pcs && u != t ==> u in s'.pcs && s'.pcs[u] == s.pcs[u]
    ensures forall k :: Pending(s, k) ==> Pending(s', k)
  {
    forall k | Pending(s, k) ensures Pending(s', k) {
      var u :| u in s.pcs && s.pcs[u].Mutated? && s.pcs[u].success == k;
      assert u in s'.pcs && s'.pcs[u] == s.pcs[u];
    }
  }

  lemma MutateKeepsMatched(s: State, t: nat, ok: bool)
    requires Safe(s) && s.Pc(t).Authorized?
    ensures Matched(Do(s, Mutate(t, ok)))
  {
    var s' := Do(s, Mutate(t, ok));
    StillPending(s, s', t);
    assert ok ==> s'.pcs[t].success == |s.done| && Pending(s', |s.done|);
    forall u | u in s.pcs && s.pcs[u].Mutated? ensures s.pcs[u].success < |s.done| {
      assert PcOk(s, s.pcs[u]);
    }
  }

  lemma MutateKeepsSafe(s: State, t: nat, ok: bool)
    requires Safe(s)
    ensures Safe(Do(s, Mutate(t, ok)))
  {
    var s' := Do(s, Mutate(t, ok));
    Forward(s, s');
    if s.Pc(t).Authorized? {
      assert PcOk(s, s.pcs[t]);
      MutateKeepsMatched(s, t, ok);
    }
  }

  lemma LogKeepsMatched(s: State, t: nat, ok: bool)
    requires Safe(s) && s.Pc(t).Mutated?
    ensures Matched(Do(s, Log(t, ok)))
  {
    var s', success := Do(s, Log(t, ok)), s.pcs[t].success;
    assert PcOk(s, s.pcs[t]);
    forall k | 0 <= k < |s.done| ensures k in s'.called || Pending(s', k) {
      if k in s.called || k == success {
        assert k in s'.called;
      } else {
        var u :| u in s.pcs && s.pcs[u].Mutated? && s.pcs[u].success == k;
        assert u in s'.pcs && s'.pcs[u] == s.pcs[u];
      }
    }
  }

  lemma LogKeepsRows(s: State, t: nat, ok: bool)
    requires Safe(s) && s.Pc(t).Mutated?
    ensures RowsCalled(Do(s, Log(t, ok)))
  {
    var s', pc := Do(s, Log(t, ok)), s.pcs[t];
    Forward(s, s');
    assert PcOk(s, pc);
    assert RowOk(s', Written(AuditOf(pc.session, pc.c), pc.login, pc.checkedAt, pc.success));
    assert forall k :: k in s.called ==> k in s'.called;
  }

  lemma LogKeepsSafe(s: State, t: nat, ok: bool)
    requires Safe(s)
    ensures Safe(Do(s, Log(t, ok)))
  {
    if s.Pc(t).Mutated? {
      var s' := Do(s, Log(t, ok));
      LogKeepsMatched(s, t, ok);
      LogKeepsRows(s, t, ok);
      forall u | u in s'.pcs ensures PcOk(s', s'.pcs[u]) {
        if u != t { assert PcOk(s, s.pcs[u]); }
      }
      assert forall token :: token in s.sessions ==> EntryOk(s, s.sessions[token]);
    }
  }

  lemma StepKeepsSafe(s: State, e: Event)
    requires Safe(s)
    ensures Safe(Do(s, e))
  {
    match e
    case Tick(d) => TickKeepsSafe(s, d);
    case LogIn(username, token) => LogInKeepsSafe(s, username, token);
    case Check(t, token, c) => CheckKeepsSafe(s, t, token, c);
    case Mutate(t, ok) => MutateKeepsSafe(s, t, ok);
    case Log(t, ok) => LogKeepsSafe(s, t, ok);
  }

  lemma {:induction false} EveryRunIsSafe(s: State, es: seq<Event>)
    requires Safe(s)
    ensures Safe(Run(s, es))
    decreases |es|
  {
    if es != [] {
      StepKeepsSafe(s, es[0]);
      EveryRunIsSafe(Do(s, es[0]), es[1..]);
    }
  }

  lemma {:induction false} SettingsFixed(s: State, es: seq<Event>)
    ensures Run(s, es).ttl == s.ttl && Run(s, es).users == s.users
    decreases |es|
  {
    if es != [] { SettingsFixed(Do(s, es[0]), es[1..]); }
  }

  /**
   * Every audit row names a console user who logged in at most the session TTL before the token check
   * of the request that wrote it.
   */
  lemma AuditRowsAreTraceable(ttl: int, now: int, users: map<string, ConsoleUser>, es: seq<Event>, i: nat)
    requires i < |Run(Start(ttl, now, users), es).audit|
    ensures var s := Run(Start(ttl, now, users), es); var w := s.audit[i];
      && w.login < |s.logins| && s.logins[w.login].user in users.Values
      && w.row.operatorId == s.logins[w.login].user.id && w.row.operatorName == s.logins[w.login].user.realName
      && w.checkedAt - ttl <= s.logins[w.login].at <= w.checkedAt
  {
    EveryRunIsSafe(Start(ttl, now, users), es);
    SettingsFixed(Start(ttl, now, users), es);
    var s := Run(Start(ttl, now, users), es);
    assert RowOk(s, s.audit[i]);
  }

  /**
   * Audit calls and successful mutations correspond one to one: each call is for a success of its own,
   * each success is called for unless its request is still before the call, and rows belong to calls.
   */
  lemma AuditMatchesSuccesses(ttl: int, now: int, users: map<string, ConsoleUser>, es: seq<Event>)
    ensures var s := Run(Start(ttl, now, users), es);
      && Distinct(s.called) && |s.audit| <= |s.called| <= |s.done|
      && (forall k :: 0 <= k < |s.done| ==> (k in s.called <==> !Pending(s, k)))
      && (forall i :: 0 <= i < |s.audit| ==> s.audit[i].success in s.called)
  {
    EveryRunIsSafe(Start(ttl, now, users), es);
    var s := Run(Start(ttl, now, users), es);
    forall k | Pending(s, k) ensures k !in s.called {
      var t :| t in s.pcs && s.pcs[t].Mutated? && s.pcs[t].success == k;
      assert PcOk(s, s.pcs[t]);
    }
    var rows := seq(|s.audit|, i requires 0 <= i < |s.audit| => s.audit[i].success);
    Injected(rows, s.called);
    var successes := seq(|s.done|, i => i);
    assert forall i :: 0 <= i < |s.called| ==> successes[s.called[i]] == s.called[i];
    Injected(s.called, successes);
  }

  /** A list without repetition is no longer than one that contains it. */
  lemma Injected(a: seq<nat>, b: seq<nat>)
    requires Distinct(a) && forall i :: 0 <= i < |a| ==> a[i] in b
    ensures |a| <= |b|
  {
    DistinctLength(a);
    assert ToSet(a) <= ToSet(b);
    SubsetSize(ToSet(a), ToSet(b));
    SetLength(b);
  }

  lemma {:induction false} SetLength(b: seq<nat>)
    ensures |ToSet(b)| <= |b|
  {
    if b != [] {
      SetLength(b[1..]);
      assert b == [b[0]] + b[1..];
      assert ToSet(b) == {b[0]} + ToSet(b[1..]);
    }
  }
}
