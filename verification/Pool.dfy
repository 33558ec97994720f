/**
 * The connection pool.  The class is the shared state with one method per critical section of
 * pool_mutex_; the state machine interleaves those sections, and the unlocked connection attempts
 * between them, over any number of threads that call DAO operations, which call one another.
 */
module Pool {
  import opened Basics

  type Conn = nat

  const MAX := 50
  const INITIAL := 5

  datatype Shared = Shared(idle: seq<Conn>, size: int)

  /** How getConnection goes on after its first critical section, or after a wake-up. */
  datatype Action = Create | Wait | Take(conn: Conn)

  function Enter(p: Shared): (Shared, Action) {
    if p.idle == [] && p.size < MAX then (p.(size := p.size + 1), Create) else Retake(p)
  }

  /** The `while (connection_pool_.empty())` test, then front() and pop(). */
  function Retake(p: Shared): (Shared, Action) {
    if p.idle == [] then (p, Wait) else (p.(idle := p.idle[1..]), Take(p.idle[0]))
  }

  function RollBack(p: Shared): Shared {
    p.(size := p.size - 1)
  }

  function Release(p: Shared, conn: Conn): Shared {
    p.(idle := p.idle + [conn])
  }

  class ConnectionPool {
    var idle: seq<Conn>
    var size: int

    ghost function State(): Shared
      reads this
    {
      Shared(idle, size)
    }

    /** The constructor of the DAO: five attempts, `attempts[i]` being what the i-th connect returns. */
    constructor (attempts: seq<Option<Conn>>)
      requires |attempts| == 5
      ensures idle == Opened(attempts) && size == |idle|
    {
      var pool: seq<Conn> := [];
      for i := 0 to INITIAL
        invariant pool == Opened(attempts[..i])
      {
        assert attempts[..i + 1][..i] == attempts[..i];
        if attempts[i].Some? { pool := pool + [attempts[i].value]; }
      }
      assert attempts[..INITIAL] == attempts;
      idle := pool;
      size := |pool|;
    }

    method EnterSection() returns (action: Action)
      modifies this
      ensures (State(), action) == Enter(old(State()))
    {
      if |idle| == 0 && size < MAX {
        size := size + 1;
        return Create;
      }
      action := RetakeSection();
    }

    method RetakeSection() returns (action: Action)
      modifies this
      ensures (State(), action) == Retake(old(State()))
    {
      if |idle| == 0 { return Wait; }
      var conn := idle[0];
      idle := idle[1..];
      action := Take(conn);
    }

    method RollBackSection()
      modifies this
      ensures State() == RollBack(old(State()))
    {
      size := size - 1;
    }

    method ReleaseConnection(conn: Conn)
      modifies this
      ensures State() == Release(old(State()), conn)
    {
      idle := idle + [conn];
    }
  }

  function Opened(attempts: seq<Option<Conn>>): seq<Conn> {
    if attempts == [] then []
    else
      var last := |attempts| - 1;
      Opened(attempts[..last]) + if attempts[last].Some? then [attempts[last].value] else []
  }

  // ---- the operations and what they call ---------------------------------------------------------------

  datatype Op =
    | CheckPermission | BatchCheckPermissions | GetUserRoles | GetUserPermissions
    | CreateApp | UpdateApp | DeleteApp | GetApp | ListApps | GetAppId | AppExists
    | CreateRole | UpdateRole | DeleteRole | ListRoles
    | CreatePermission | UpdatePermission | DeletePermission | ListPermissions | PermissionExists
    | AssignRoleToUser | RemoveRoleFromUser | AddPermissionToRole | RemovePermissionFromRole
    | GetRolePermissions | GetRolesWithPermission | GetRoleUsers | ListUserRoles
    | CreateAuditLog | ListAuditLogs | GetConsoleUser | GetConsoleUserHash

  /** The operations an operation calls; those with a guard of their own hold it meanwhile. */
  function Calls(op: Op): set<Op> {
    match op
    case BatchCheckPermissions => {CheckPermission}
    case GetConsoleUserHash => {GetConsoleUser}
    case AppExists | PermissionExists | CreateRole | UpdateRole | DeleteRole | ListRoles
       | CreatePermission | UpdatePermission | DeletePermission | ListPermissions
       | GetRolePermissions | GetRolesWithPermission | GetRoleUsers | ListUserRoles => {GetAppId}
    case _ => {}
  }

  /** Whether the operation opens with a ConnectionGuard. */
  predicate Guarded(op: Op) {
    !op.BatchCheckPermissions? && !op.AppExists? && !op.GetConsoleUserHash?
  }

  /** An operation without a guard reaches the database only through one that has one. */
  lemma UnguardedDelegates(op: Op)
    ensures Guarded(op) || exists inner :: inner in Calls(op) && Guarded(inner)
    ensures forall inner :: inner in Calls(op) ==> Guarded(inner) && Calls(inner) == {}
  {
    if !Guarded(op) {
      assert CheckPermission in Calls(op) || GetAppId in Calls(op) || GetConsoleUser in Calls(op);
    }
  }

  function Last(stack: seq<Op>): Op
    requires stack != []
  {
    stack[|stack| - 1]
  }

  function Popped(stack: seq<Op>): seq<Op>
    requires stack != []
  {
    stack[..|stack| - 1]
  }

  predicate MayCall(stack: seq<Op>, op: Op) {
    stack == [] || op in Calls(Last(stack))
  }

  predicate WellNested(stack: seq<Op>) {
    stack == [] || (WellNested(Popped(stack)) && MayCall(Popped(stack), Last(stack)))
  }

  /** The guards a call stack has constructed, or is constructing. */
  function Guards(stack: seq<Op>): nat {
    if stack == [] then 0 else Guards(Popped(stack)) + if Guarded(Last(stack)) then 1 else 0
  }

  const NESTING := 2

  /** What an operation calls calls nothing, so guards nest at most two deep. */
  lemma {:induction false} GuardsNestTwice(stack: seq<Op>)
    requires WellNested(stack)
    ensures |stack| <= 2 && Guards(stack) <= NESTING
  {
    if stack != [] {
      GuardsNestTwice(Popped(stack));
      if |stack| == 2 {
        assert Guards(Popped(Popped(stack))) == 0;
      }
    }
  }

  lemma Push(stack: seq<Op>, op: Op)
    requires WellNested(stack) && MayCall(stack, op)
    ensures WellNested(stack + [op]) && Guards(stack + [op]) == Guards(stack) + if Guarded(op) then 1 else 0
  {
    assert Popped(stack + [op]) == stack;
  }

  // ---- all interleavings ---------------------------------------------------------------------------

  /**
   * Where a thread is.  `Creating` and `Reconnecting` are unlocked and own a slot; so do the two
   * `Failed` states, between a failed connect and the lock under which the slot is given back.
   */
  datatype Pc = Running | Waiting | Creating | CreateFailed | Reconnecting | ReconnectFailed

  /**
   * The DAO operations a thread is inside of, and the connections of their guards, innermost last.
   * Unless `Running`, it is in getConnection for the guard of the innermost one.
   */
  datatype Thread = Thread(stack: seq<Op>, held: seq<Conn>, pc: Pc)

  const AT_REST := Thread([], [], Running)

  datatype State = State(pool: Shared, threads: seq<Thread>, nextConn: Conn)

  datatype Event =
    | Call(i: nat, op: Op, valid: bool)
    | Wake(i: nat, valid: bool)
    | Timeout(i: nat)
    | Connect(i: nat, ok: bool)
    | GiveUp(i: nat)
    | Return(i: nat)

  /** Thread i, now as t, carries on with getConnection. */
  function Proceed(s: State, i: nat, t: Thread, next: (Shared, Action), valid: bool): State
    requires i < |s.threads|
  {
    match next.1
    case Create => s.(pool := next.0, threads := s.threads[i := t.(pc := Creating)])
    case Wait => s.(pool := next.0, threads := s.threads[i := t.(pc := Waiting)])
    case Take(conn) =>
      if valid then s.(pool := next.0, threads := s.threads[i := t.(held := t.held + [conn], pc := Running)])
      else s.(pool := next.0, threads := s.threads[i := t.(pc := Reconnecting)])
  }

  /** Without a connection the operation returns at once. */
  function Failed(t: Thread): Thread
    requires t.stack != []
  {
    t.(stack := Popped(t.stack), pc := Running)
  }

  /** The operation returns; its guard, if it has one, gives its connection back. */
  function Returned(s: State, i: nat): State
    requires i < |s.threads| && s.threads[i].stack != []
  {
    var t := s.threads[i];
    var last := |t.held| - 1;
    if !Guarded(Last(t.stack)) || t.held == [] then s.(threads := s.threads[i := Failed(t)])
    else s.(pool := Release(s.pool, t.held[last]), threads := s.threads[i := Failed(t).(held := t.held[..last])])
  }

  function Do(s: State, e: Event): State {
    if e.i >= |s.threads| then s else
    var t := s.threads[e.i];
    match e
    case Call(i, op, valid) =>
      if !t.pc.Running? || !MayCall(t.stack, op) then s
      else if Guarded(op) then Proceed(s, i, t.(stack := t.stack + [op]), Enter(s.pool), valid)
      else s.(threads := s.threads[i := t.(stack := t.stack + [op])])
    case Wake(i, valid) =>
      if t.pc.Waiting? then Proceed(s, i, t, Retake(s.pool), valid) else s
    case Timeout(i) =>
      if t.pc.Waiting? && t.stack != [] then s.(threads := s.threads[i := Failed(t)]) else s
    case Connect(i, ok) =>
      if !(t.pc.Creating? || t.pc.Reconnecting?) then s
      else if ok then
        State(s.pool, s.threads[i := t.(held := t.held + [s.nextConn], pc := Running)], s.nextConn + 1)
      else s.(threads := s.threads[i := t.(pc := if t.pc.Creating? then CreateFailed else ReconnectFailed)])
    case GiveUp(i) =>
      if (t.pc.CreateFailed? || t.pc.ReconnectFailed?) && t.stack != []
      then State(RollBack(s.pool), s.threads[i := Failed(t)], s.nextConn) else s
    case Return(i) =>
      if t.pc.Running? && t.stack != [] then Returned(s, i) else s
  }

  // ---- one guard from beginning to end -----------------------------------------------------------------

  /** A thread about to call an operation that opens with a guard. */
  predicate Ready(s: State, i: nat, op: Op) {
    i < |s.threads| && s.threads[i].pc.Running? && MayCall(s.threads[i].stack, op) && Guarded(op)
  }

  /** Thread i inside the operation, its guard holding the connection. */
  function Inside(s: State, i: nat, op: Op, conn: Conn): seq<Thread>
    requires i < |s.threads|
  {
    var t := s.threads[i];
    s.threads[i := Thread(t.stack + [op], t.held + [conn], Running)]
  }

  /** The longest idle connection is taken, and nothing is opened. */
  lemma GuardTakes(s: State, i: nat, op: Op)
    requires Ready(s, i, op) && s.pool.idle != []
    ensures Do(s, Call(i, op, true))
         == State(Shared(s.pool.idle[1..], s.pool.size), Inside(s, i, op, s.pool.idle[0]), s.nextConn)
  {
  }

  /** If it has gone bad, a new one takes its place, or its slot is given up and the operation returns. */
  lemma GuardReplaces(s: State, i: nat, op: Op)
    requires Ready(s, i, op) && s.pool.idle != []
    ensures var taken := Do(s, Call(i, op, false));
      && Do(taken, Connect(i, true))
         == State(Shared(s.pool.idle[1..], s.pool.size), Inside(s, i, op, s.nextConn), s.nextConn + 1)
      && Do(Do(taken, Connect(i, false)), GiveUp(i))
         == State(Shared(s.pool.idle[1..], s.pool.size - 1), s.threads, s.nextConn)
  {
    FailedCallIsGone(s, i, op);
  }

  /** With none idle and room, one is opened; if that fails all is as before. */
  lemma GuardOpens(s: State, i: nat, op: Op, valid: bool)
    requires Ready(s, i, op) && s.pool.idle == [] && s.pool.size < 50
    ensures var reserved := Do(s, Call(i, op, valid));
      && Do(reserved, Connect(i, true))
         == State(Shared([], s.pool.size + 1), Inside(s, i, op, s.nextConn), s.nextConn + 1)
      && Do(Do(reserved, Connect(i, false)), GiveUp(i)) == s
  {
    FailedCallIsGone(s, i, op);
  }

  /** With none idle and no room, it waits: until time runs out, or until a wake-up finds one. */
  lemma GuardWaits(s: State, i: nat, op: Op, valid: bool)
    requires Ready(s, i, op) && s.pool.idle == [] && s.pool.size >= 50
    ensures var waiting := Do(s, Call(i, op, valid));
      && waiting.threads[i].pc.Waiting? && waiting.pool == s.pool
      && Do(waiting, Timeout(i)) == s && Do(waiting, Wake(i, valid)) == waiting
      && forall conn: Conn :: Do(waiting.(pool := Release(s.pool, conn)), Wake(i, true))
           == State(s.pool, Inside(s, i, op, conn), s.nextConn)
  {
    FailedCallIsGone(s, i, op);
  }

  /** When the operation returns, its connection goes to the back of the queue. */
  lemma GuardReturns(s: State, i: nat, op: Op, conn: Conn)
    requires Ready(s, i, op)
    ensures Do(s.(threads := Inside(s, i, op, conn)), Return(i))
         == s.(pool := Shared(s.pool.idle + [conn], s.pool.size))
  {
    FailedCallIsGone(s, i, op);
    var t, inside := s.threads[i], s.(threads := Inside(s, i, op, conn));
    var inner := inside.threads[i];
    assert inner == Thread(t.stack + [op], t.held + [conn], Running) && Last(inner.stack) == op;
    assert inner.held[..|inner.held| - 1] == t.held && inner.held[|inner.held| - 1] == conn;
    assert Failed(inner).(held := t.held) == t;
    assert Returned(inside, i).threads == s.threads;
  }

  /** An operation without a guard of its own touches nothing. */
  lemma UnguardedReturns(s: State, i: nat, op: Op, valid: bool)
    requires i < |s.threads| && s.threads[i].pc.Running? && MayCall(s.threads[i].stack, op) && !Guarded(op)
    ensures Do(Do(s, Call(i, op, valid)), Return(i)) == s
  {
    FailedCallIsGone(s, i, op);
    assert s.threads[i := s.threads[i]] == s.threads;
  }

  lemma FailedCallIsGone(s: State, i: nat, op: Op)
    requires i < |s.threads| && s.threads[i].pc.Running?
    ensures forall pc: Pc :: Failed(Thread(s.threads[i].stack + [op], s.threads[i].held, pc)) == s.threads[i]
  {
    assert Popped(s.threads[i].stack + [op]) == s.threads[i].stack;
  }

  function Run(s: State, es: seq<Event>): State
    decreases |es|
  {
    if es == [] then s else Run(Do(s, es[0]), es[1..])
  }

  /** A new DAO of which `up` of the initial connections came up, and n threads using it. */
  function Start(n: nat, up: nat): State {
    State(Shared(seq(up, i => i), up), seq(n, i => AT_REST), up)
  }

  // ---- conservation --------------------------------------------------------------------------------------

  predicate OwnsSlot(t: Thread) {
    t.pc.Creating? || t.pc.CreateFailed? || t.pc.Reconnecting? || t.pc.ReconnectFailed?
  }

  /** The part of current_pool_size_ a thread accounts for: what it holds, and a slot it has reserved. */
  function Share(t: Thread): nat {
    |t.held| + if OwnsSlot(t) then 1 else 0
  }

  function Shares(ts: seq<Thread>): nat {
    if ts == [] then 0 else Share(ts[0]) + Shares(ts[1..])
  }

  /** How many guards hold the connection. */
  function Holders(ts: seq<Thread>, c: Conn): nat {
    if ts == [] then 0 else multiset(ts[0].held)[c] + Holders(ts[1..], c)
  }

  function Owners(s: State, c: Conn): nat {
    multiset(s.pool.idle)[c] + Holders(s.threads, c)
  }

  /** At most one owner, and none for a connection not opened yet. */
  function Bound(s: State, c: Conn): nat {
    if c < s.nextConn then 1 else 0
  }

  ghost predicate Counted(s: State) {
    s.pool.size == |s.pool.idle| + Shares(s.threads) && s.pool.size <= MAX
  }

  ghost predicate Unshared(s: State) {
    forall c: Conn :: Owners(s, c) <= Bound(s, c)
  }

  /** One connection for each guard on the stack, but for the one getConnection is at work for. */
  ghost predicate ThreadOk(t: Thread) {
    && WellNested(t.stack) && Guards(t.stack) == |t.held| + (if t.pc.Running? then 0 else 1)
    && (!t.pc.Running? ==> t.stack != [] && Guarded(Last(t.stack)))
  }

  ghost predicate Nested(s: State) {
    forall i :: 0 <= i < |s.threads| ==> ThreadOk(s.threads[i])
  }

  ghost predicate Conserved(s: State) {
    Counted(s) && Unshared(s) && Nested(s)
  }

  lemma {:induction false} UpdateShares(ts: seq<Thread>, i: nat, t: Thread)
    requires i < |ts|
    ensures Shares(ts[i := t]) == Shares(ts) - Share(ts[i]) + Share(t)
    ensures Shares(ts) >= Share(ts[i])
  {
    if i == 0 {
      assert ts[0 := t][1..] == ts[1..];
    } else {
      assert ts[i := t][1..] == ts[1..][i - 1 := t];
      UpdateShares(ts[1..], i - 1, t);
    }
  }

  lemma {:induction false} UpdateHolders(ts: seq<Thread>, i: nat, t: Thread, c: Conn)
    requires i < |ts|
    ensures Holders(ts[i := t], c) == Holders(ts, c) - multiset(ts[i].held)[c] + multiset(t.held)[c]
    ensures Holders(ts, c) >= multiset(ts[i].held)[c]
  {
    if i == 0 {
      assert ts[0 := t][1..] == ts[1..];
    } else {
      assert ts[i := t][1..] == ts[1..][i - 1 := t];
      UpdateHolders(ts[1..], i - 1, t, c);
    }
  }

  /** The effect of a step of thread i on every count. */
  lemma ThreadStep(s: State, i: nat, t: Thread)
    requires i < |s.threads|
    ensures Shares(s.threads[i := t]) == Shares(s.threads) - Share(s.threads[i]) + Share(t)
    ensures Shares(s.threads) >= Share(s.threads[i])
    ensures forall c: Conn ::
      Holders(s.threads[i := t], c) == Holders(s.threads, c) - multiset(s.threads[i].held)[c] + multiset(t.held)[c]
  {
    UpdateShares(s.threads, i, t);
    forall c: Conn
      ensures Holders(s.threads[i := t], c)
           == Holders(s.threads, c) - multiset(s.threads[i].held)[c] + multiset(t.held)[c]
    {
      UpdateHolders(s.threads, i, t, c);
    }
  }

  /** A step that moves no connection: only the counter and the thread's stack and program counter change. */
  lemma SlotStep(s: State, i: nat, t: Thread, size: int)
    requires Conserved(s) && i < |s.threads| && t.held == s.threads[i].held && ThreadOk(t)
    requires size == s.pool.size - Share(s.threads[i]) + Share(t) && size <= MAX
    ensures Conserved(s.(pool := s.pool.(size := size), threads := s.threads[i := t]))
  {
    var s' := s.(pool := s.pool.(size := size), threads := s.threads[i := t]);
    ThreadStep(s, i, t);
    forall c: Conn ensures Owners(s', c) == Owners(s, c) {}
  }

  /** The connections in the queue and with one thread. */
  function Reach(s: State, i: nat): multiset<Conn>
    requires i < |s.threads|
  {
    multiset(s.pool.idle) + multiset(s.threads[i].held)
  }

  /** Owners change with the queue and with what the thread holds. */
  lemma OwnersStep(s: State, s': State, i: nat)
    requires i < |s.threads| == |s'.threads| && s'.threads == s.threads[i := s'.threads[i]]
    requires Reach(s', i) <= Reach(s, i)
    ensures forall c: Conn :: Owners(s', c) <= Owners(s, c)
  {
    forall c: Conn ensures Owners(s', c) <= Owners(s, c) {
      UpdateHolders(s.threads, i, s'.threads[i], c);
      assert Reach(s', i)[c] <= Reach(s, i)[c];
    }
  }

  lemma TakeStep(s: State, i: nat, t: Thread, valid: bool)
    requires Conserved(s) && i < |s.threads| && s.pool.idle != []
    requires t.held == s.threads[i].held && !OwnsSlot(s.threads[i]) && ThreadOk(t.(pc := Waiting))
    ensures Conserved(Proceed(s, i, t, Retake(s.pool), valid))
  {
    var s' := Proceed(s, i, t, Retake(s.pool), valid);
    var conn := s.pool.idle[0];
    UpdateShares(s.threads, i, s'.threads[i]);
    assert s.pool.idle == [conn] + s'.pool.idle;
    assert multiset(t.held + [conn]) == multiset(t.held) + multiset{conn};
    OwnersStep(s, s', i);
    assert ThreadOk(s'.threads[i]);
  }

  lemma ConnectStep(s: State, i: nat)
    requires Conserved(s) && i < |s.threads| && (s.threads[i].pc.Creating? || s.threads[i].pc.Reconnecting?)
    ensures Conserved(Do(s, Connect(i, true)))
  {
    var s', t := Do(s, Connect(i, true)), s.threads[i];
    ThreadStep(s, i, s'.threads[i]);
    assert ThreadOk(t);
    forall c: Conn ensures Owners(s', c) == Owners(s, c) + if c == s.nextConn then 1 else 0 {
      assert multiset(t.held + [s.nextConn])[c] == multiset(t.held)[c] + multiset([s.nextConn])[c];
    }
    forall c: Conn ensures Owners(s', c) <= Bound(s', c) {
      assert Owners(s, c) <= Bound(s, c);
    }
  }

  lemma ReleaseStep(s: State, i: nat, t: Thread)
    requires Conserved(s) && i < |s.threads| && s.threads[i].pc.Running? && s.threads[i].held != []
    requires t.pc.Running? && t.held == s.threads[i].held[..|s.threads[i].held| - 1] && ThreadOk(t)
    ensures var held := s.threads[i].held;
      Conserved(s.(pool := Release(s.pool, held[|held| - 1]), threads := s.threads[i := t]))
  {
    var held := s.threads[i].held;
    var conn := held[|held| - 1];
    var s' := s.(pool := Release(s.pool, conn), threads := s.threads[i := t]);
    UpdateShares(s.threads, i, t);
    assert held == t.held + [conn];
    assert multiset(held) == multiset(t.held) + multiset{conn};
    assert multiset(s'.pool.idle) == multiset(s.pool.idle) + multiset{conn};
    OwnersStep(s, s', i);
  }

  /** The thread is as it should be once inside the operation, or on its way there. */
  lemma CallKeepsOk(t: Thread, op: Op)
    requires ThreadOk(t) && t.pc.Running? && MayCall(t.stack, op)
    ensures if Guarded(op) then forall pc: Pc :: !pc.Running? ==> ThreadOk(Thread(t.stack + [op], t.held, pc))
            else ThreadOk(t.(stack := t.stack + [op]))
  {
    Push(t.stack, op);
  }

  lemma CallConserves(s: State, i: nat, op: Op, valid: bool)
    requires Conserved(s) && i < |s.threads| && s.threads[i].pc.Running? && MayCall(s.threads[i].stack, op)
    ensures Conserved(Do(s, Call(i, op, valid)))
  {
    var was := s.threads[i];
    var t := was.(stack := was.stack + [op]);
    CallKeepsOk(was, op);
    if !Guarded(op) {
      SlotStep(s, i, t, s.pool.size);
    } else if s.pool.idle != [] {
      TakeStep(s, i, t, valid);
    } else if s.pool.size < MAX {
      SlotStep(s, i, t.(pc := Creating), s.pool.size + 1);
    } else {
      SlotStep(s, i, t.(pc := Waiting), s.pool.size);
    }
  }

  lemma WakeConserves(s: State, i: nat, valid: bool)
    requires Conserved(s) && i < |s.threads| && s.threads[i].pc.Waiting?
    ensures Conserved(Do(s, Wake(i, valid)))
  {
    assert ThreadOk(s.threads[i]);
    if s.pool.idle != [] {
      TakeStep(s, i, s.threads[i], valid);
    } else {
      SlotStep(s, i, s.threads[i], s.pool.size);
    }
  }

  lemma ConnectConserves(s: State, i: nat, ok: bool)
    requires Conserved(s) && i < |s.threads|
    ensures Conserved(Do(s, Connect(i, ok)))
  {
    var t := s.threads[i];
    if t.pc.Creating? || t.pc.Reconnecting? {
      if ok {
        ConnectStep(s, i);
      } else {
        assert ThreadOk(t);
        SlotStep(s, i, t.(pc := if t.pc.Creating? then CreateFailed else ReconnectFailed), s.pool.size);
      }
    }
  }

  lemma FailKeepsOk(t: Thread)
    requires ThreadOk(t) && !t.pc.Running?
    ensures ThreadOk(Failed(t))
  {
  }

  lemma FailConserves(s: State, i: nat)
    requires Conserved(s) && i < |s.threads| && !s.threads[i].pc.Running?
    ensures var t := s.threads[i]; var size := s.pool.size - if OwnsSlot(t) then 1 else 0;
      t.stack != [] && Conserved(s.(pool := s.pool.(size := size), threads := s.threads[i := Failed(t)]))
  {
    var t := s.threads[i];
    assert ThreadOk(t);
    FailKeepsOk(t);
    SlotStep(s, i, Failed(t), s.pool.size - if OwnsSlot(t) then 1 else 0);
  }

  lemma TimeoutConserves(s: State, i: nat)
    requires Conserved(s) && i < |s.threads| && s.threads[i].pc.Waiting?
    ensures Conserved(Do(s, Timeout(i)))
  {
    FailConserves(s, i);
    assert s.pool.(size := s.pool.size - 0) == s.pool;
  }

  lemma GiveUpConserves(s: State, i: nat)
    requires Conserved(s) && i < |s.threads| && (s.threads[i].pc.CreateFailed? || s.threads[i].pc.ReconnectFailed?)
    ensures Conserved(Do(s, GiveUp(i)))
  {
    FailConserves(s, i);
  }

  lemma ReturnConserves(s: State, i: nat)
    requires Conserved(s) && i < |s.threads| && s.threads[i].pc.Running? && s.threads[i].stack != []
    ensures Conserved(Do(s, Return(i)))
  {
    var t := s.threads[i];
    assert ThreadOk(t);
    if Guarded(Last(t.stack)) {
      ReleaseStep(s, i, Failed(t).(held := t.held[..|t.held| - 1]));
    } else {
      SlotStep(s, i, Failed(t), s.pool.size);
    }
  }

  lemma StepConserves(s: State, e: Event)
    requires Conserved(s)
    ensures Conserved(Do(s, e))
  {
    if e.i < |s.threads| {
      var t := s.threads[e.i];
      match e
      case Call(i, op, valid) => if t.pc.Running? && MayCall(t.stack, op) { CallConserves(s, i, op, valid); }
      case Wake(i, valid) => if t.pc.Waiting? { WakeConserves(s, i, valid); }
      case Timeout(i) => if t.pc.Waiting? { TimeoutConserves(s, i); }
      case Connect(i, ok) => ConnectConserves(s, i, ok);
      case GiveUp(i) => if t.pc.CreateFailed? || t.pc.ReconnectFailed? { GiveUpConserves(s, i); }
      case Return(i) => if t.pc.Running? && t.stack != [] { ReturnConserves(s, i); }
    }
  }

  // ---- every run -----------------------------------------------------------------------------------------

  lemma {:induction false} NothingHeld(ts: seq<Thread>)
    requires forall i :: 0 <= i < |ts| ==> ts[i] == AT_REST
    ensures Shares(ts) == 0 && forall c: Conn :: Holders(ts, c) == 0
  {
    if ts != [] { NothingHeld(ts[1..]); }
  }

  lemma {:induction false} CountUpTo(n: nat, c: Conn)
    ensures multiset(seq(n, i => i))[c] == if c < n then 1 else 0
  {
    if n > 0 {
      CountUpTo(n - 1, c);
      assert seq(n, i => i) == seq(n - 1, i => i) + [n - 1];
    }
  }

  lemma StartConserved(n: nat, up: nat)
    requires up <= 5
    ensures Conserved(Start(n, up))
  {
    NothingHeld(Start(n, up).threads);
    forall c: Conn ensures Owners(Start(n, up), c) <= Bound(Start(n, up), c) {
      CountUpTo(up, c);
    }
  }

  lemma {:induction false} EveryRunConserves(s: State, es: seq<Event>)
    requires Conserved(s)
    ensures Conserved(Run(s, es)) && |Run(s, es).threads| == |s.threads|
    decreases |es|
  {
    if es != [] {
      StepConserves(s, es[0]);
      EveryRunConserves(Do(s, es[0]), es[1..]);
    }
  }

  /** What conservation says of a reachable pool, in every interleaving and with connects failing anywhere. */
  lemma PoolIsSound(n: nat, up: nat, es: seq<Event>)
    requires up <= 5
    ensures var s := Run(Start(n, up), es);
      && s.pool.size == |s.pool.idle| + Shares(s.threads) && 0 <= s.pool.size <= 50
      // the counter is positive whenever a thread is about to decrement it
      && (forall i :: 0 <= i < |s.threads| && OwnsSlot(s.threads[i]) ==> s.pool.size >= 1)
      // no connection is held twice, nor held and idle, nor idle twice
      && (forall c: Conn :: Owners(s, c) <= 1)
      // with no operation in flight the counter is the idle count
      && ((forall i :: 0 <= i < |s.threads| ==> s.threads[i] == AT_REST) ==> s.pool.size == |s.pool.idle|)
  {
    StartConserved(n, up);
    EveryRunConserves(Start(n, up), es);
    var s := Run(Start(n, up), es);
    forall i | 0 <= i < |s.threads| && OwnsSlot(s.threads[i]) ensures s.pool.size >= 1 {
      UpdateShares(s.threads, i, s.threads[i]);
    }
    if forall i :: 0 <= i < |s.threads| ==> s.threads[i] == AT_REST { NothingHeld(s.threads); }
  }

  // ---- capacity ------------------------------------------------------------------------------------------

  lemma {:induction false} SharesBound(ts: seq<Thread>)
    requires forall i :: 0 <= i < |ts| ==> Share(ts[i]) <= NESTING
    ensures Shares(ts) <= NESTING * |ts|
  {
    if ts != [] { SharesBound(ts[1..]); }
  }

  ghost predicate SomeoneWaits(s: State) {
    exists i :: 0 <= i < |s.threads| && s.threads[i].pc.Waiting?
  }

  /** What a thread accounts for is bounded by the guards of its stack. */
  lemma ShareBound(t: Thread)
    requires ThreadOk(t)
    ensures Share(t) <= NESTING
  {
    GuardsNestTwice(t.stack);
  }

  /** With 25 threads a step into getConnection always finds an idle connection or a free slot. */
  lemma FewThreadsNeverWaitStep(s: State, e: Event)
    requires Conserved(s) && |s.threads| <= MAX / NESTING && !SomeoneWaits(s)
    ensures !SomeoneWaits(Do(s, e))
  {
    if e.Call? && e.i < |s.threads| {
      var t := s.threads[e.i];
      if t.pc.Running? && MayCall(t.stack, e.op) && Guarded(e.op) && s.pool.idle == [] {
        SlotIsFree(s, e.i, e.op);
      }
    }
  }

  lemma SlotIsFree(s: State, i: nat, op: Op)
    requires Conserved(s) && |s.threads| <= MAX / NESTING && s.pool.idle == [] && i < |s.threads|
    requires s.threads[i].pc.Running? && MayCall(s.threads[i].stack, op) && Guarded(op)
    ensures s.pool.size < MAX
  {
    var t := s.threads[i];
    var full := s.threads[i := Thread(t.stack + [op], t.held, Creating)];
    assert ThreadOk(t);
    Push(t.stack, op);
    forall j | 0 <= j < |full| ensures Share(full[j]) <= NESTING {
      assert j != i ==> ThreadOk(s.threads[j]);
      ShareBound(full[j]);
    }
    UpdateShares(s.threads, i, full[i]);
    SharesBound(full);
  }

  lemma {:induction false} FewThreadsNeverWait(s: State, es: seq<Event>)
    requires Conserved(s) && |s.threads| <= MAX / NESTING && !SomeoneWaits(s)
    ensures !SomeoneWaits(Run(s, es))
    decreases |es|
  {
    if es != [] {
      StepConserves(s, es[0]);
      FewThreadsNeverWaitStep(s, es[0]);
      FewThreadsNeverWait(Do(s, es[0]), es[1..]);
    }
  }

  /** The first h acquisitions, two a thread, have succeeded. */
  ghost predicate Filled(ts: seq<Thread>, n: nat, h: nat) {
    && |ts| == n && Shares(ts) == h
    && (forall i :: 0 <= i < n ==>
          ts[i].pc.Running? && ts[i].stack == StackOf(Depth(i, h)) && |ts[i].held| == Depth(i, h))
  }

  function Depth(i: nat, h: nat): nat {
    if 2 * i + 2 <= h then 2 else if 2 * i + 1 == h then 1 else 0
  }

  /** Inside nothing, inside createRole, or inside the getAppId it calls. */
  function StackOf(depth: nat): seq<Op> {
    if depth == 0 then [] else if depth == 1 then [CreateRole] else [CreateRole, GetAppId]
  }

  function NextCall(depth: nat): Op {
    if depth == 0 then CreateRole else GetAppId
  }

  lemma DepthStep(h: nat)
    ensures Depth(h / 2, h) < NESTING && Depth(h / 2, h + 1) == Depth(h / 2, h) + 1
    ensures forall j :: j != h / 2 ==> Depth(j, h + 1) == Depth(j, h)
  {
  }

  lemma StackStep(depth: nat)
    requires depth < NESTING
    ensures StackOf(depth + 1) == StackOf(depth) + [NextCall(depth)] && MayCall(StackOf(depth), NextCall(depth))
  {
  }

  /** Thread h / 2 takes one more and nothing else changes hands. */
  lemma FilledByOne(ts: seq<Thread>, t: Thread, n: nat, h: nat)
    requires Filled(ts, n, h) && h < 2 * n
    requires t.pc.Running? && |t.held| == |ts[h / 2].held| + 1
    requires t.stack == ts[h / 2].stack + [NextCall(Depth(h / 2, h))]
    ensures Filled(ts[h / 2 := t], n, h + 1)
  {
    var i, after := h / 2, ts[h / 2 := t];
    DepthStep(h);
    StackStep(Depth(i, h));
    UpdateShares(ts, i, t);
    assert ts[i].pc.Running? && ts[i].stack == StackOf(Depth(i, h)) && |ts[i].held| == Depth(i, h);
    forall j | 0 <= j < n
      ensures after[j].pc.Running? && after[j].stack == StackOf(Depth(j, h + 1)) && |after[j].held| == Depth(j, h + 1)
    {
      if j != i { assert after[j] == ts[j] && Depth(j, h + 1) == Depth(j, h); }
    }
  }

  lemma ShortRuns(s: State, e: Event, f: Event)
    ensures Run(s, [e]) == Do(s, e) && Run(s, [e, f]) == Do(Do(s, e), f)
  {
    assert [e][1..] == [] && [e, f][1..] == [f] && [f][1..] == [];
    assert Run(Do(s, e), [f]) == Run(Do(Do(s, e), f), []);
  }

  /** A call that needs a guard finds an idle connection, or opens one. */
  lemma CallSucceeds(s: State, i: nat, op: Op) returns (es: seq<Event>, t: Thread)
    requires i < |s.threads| && s.threads[i].pc.Running? && MayCall(s.threads[i].stack, op) && Guarded(op)
    requires s.pool.idle != [] || s.pool.size < MAX
    ensures Run(s, es).threads == s.threads[i := t]
    ensures t.stack == s.threads[i].stack + [op] && |t.held| == |s.threads[i].held| + 1 && t.pc.Running?
  {
    var was := s.threads[i];
    ShortRuns(s, Call(i, op, true), Connect(i, true));
    if s.pool.idle != [] {
      es, t := [Call(i, op, true)], Thread(was.stack + [op], was.held + [s.pool.idle[0]], Running);
    } else {
      es, t := [Call(i, op, true), Connect(i, true)], Thread(was.stack + [op], was.held + [s.nextConn], Running);
    }
  }

  /** While fewer than 50 connections are held, thread h / 2 can take one more. */
  lemma FillOne(s: State, n: nat, h: nat) returns (es: seq<Event>)
    requires Conserved(s) && Filled(s.threads, n, h) && h < MAX && h < 2 * n
    ensures Conserved(Run(s, es)) && Filled(Run(s, es).threads, n, h + 1)
  {
    DepthStep(h);
    StackStep(Depth(h / 2, h));
    var t: Thread;
    es, t := CallSucceeds(s, h / 2, NextCall(Depth(h / 2, h)));
    FilledByOne(s.threads, t, n, h);
    EveryRunConserves(s, es);
  }

  lemma {:induction false} Fill(s: State, n: nat, h: nat) returns (es: seq<Event>)
    requires Conserved(s) && Filled(s.threads, n, h) && h <= MAX < 2 * n
    ensures Conserved(Run(s, es)) && Filled(Run(s, es).threads, n, MAX)
    decreases MAX - h
  {
    if h == MAX {
      es := [];
    } else {
      var first := FillOne(s, n, h);
      var rest := Fill(Run(s, first), n, h + 1);
      es := first + rest;
      RunAppend(s, first, rest);
    }
  }

  lemma {:induction false} RunAppend(s: State, es: seq<Event>, fs: seq<Event>)
    ensures Run(s, es + fs) == Run(Run(s, es), fs)
    decreases |es|
  {
    if es == [] {
      assert es + fs == fs;
    } else {
      RunAppend(Do(s, es[0]), es[1..], fs);
      assert (es + fs)[1..] == es[1..] + fs;
    }
  }

  ghost predicate LeadsToWait(n: nat, up: nat, es: seq<Event>) {
    SomeoneWaits(Run(Start(n, up), es))
  }

  lemma ManyThreadsCanWait(n: nat, up: nat) returns (es: seq<Event>)
    requires up <= 5 && n > MAX / NESTING
    ensures LeadsToWait(n, up, es)
  {
    var s := Start(n, up);
    StartConserved(n, up);
    NothingHeld(s.threads);
    var fill := Fill(s, n, 0);
    var full := Run(s, fill);
    var i := MAX / NESTING;
    var call := Call(i, CreateRole, true);
    es := fill + [call];
    RunAppend(s, fill, [call]);
    var last := Do(full, call);
    assert [call][1..] == [];
    assert last.threads[i].pc.Waiting?;
  }

  /** The wait branch is reachable exactly when more than 25 threads share the DAO. */
  lemma WaitReachableIff(n: nat, up: nat)
    requires up <= 5
    ensures (exists es :: LeadsToWait(n, up, es)) <==> n > 25
  {
    if n > MAX / NESTING {
      var es := ManyThreadsCanWait(n, up);
    } else {
      StartConserved(n, up);
      forall es ensures !LeadsToWait(n, up, es) {
        FewThreadsNeverWait(Start(n, up), es);
      }
    }
  }
}
