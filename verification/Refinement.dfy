/** A DAO operation run without interruption is a run of the interleaved model with one thread in it. */
module Refinement {
  import opened Tables
  import opened History
  import opened StoreRuns
  import C = Commands

  function Alone(w: World): State {
    State(w, map[])
  }

  /** The statements thread 0 issues for an operation whose lookups find what they look for. */
  ghost function Statements(w: World, c: C.Command): seq<Event> {
    var db := w.db;
    match c
    case CreateApp(code, name, description) => [CreateApp(name, code, description)]
    case UpdateApp(code, patch) => if patch == C.NOTHING then [] else [SetApp(code, patch)]
    case DeleteApp(code) => [DeleteApp(code)]
    case Grant(code, user, role) =>
      if RoleIds(db, code, role) == {} then []
      else [FindRole(0, code, role, C.The(RoleIds(db, code, role)), user), Assign(0)]
    case Revoke(code, user, role) => [Revoke(code, user, role)]
    case AddPermToRole(code, role, perm) =>
      if RoleIds(db, code, role) == {} || PermIds(db, code, perm) == {} then []
      else
        [FindLinkRole(0, code, role, C.The(RoleIds(db, code, role)), perm),
         FindLinkPerm(0, C.The(PermIds(db, code, perm))), Link(0)]
    case RemovePermFromRole(code, role, perm) => [Unlink(code, role, perm)]
    case CreateRole(code, role, _) => OnApp(db, code, NewRole(role))
    case CreatePerm(code, perm, name) => OnApp(db, code, NewPerm(perm, name))
    case DeleteRole(code, role) => OnApp(db, code, DropRole(role))
    case DeletePerm(code, perm) => OnApp(db, code, DropPerm(perm))
    case UpdateRole(_, _) => []
    case UpdatePerm(code, perm, name) => OnApp(db, code, Rename(perm, name))
  }

  ghost function OnApp(db: DB, code: string, job: Job): seq<Event> {
    if AppIds(db, code) == {} then [] else [FindApp(0, code, C.The(AppIds(db, code)), job), RunJob(0)]
  }

  lemma OneStep(s: State, e: Event)
    ensures Run(s, [e]) == Do(s, e)
  {
    Follow([s, Do(s, e)], [e]);
  }

  lemma OnAppRuns(w: World, code: string, job: Job)
    ensures Run(Alone(w), OnApp(w.db, code, job)).w ==
      if AppIds(w.db, code) == {} then w else RunOn(w, C.The(AppIds(w.db, code)), job)
  {
    if AppIds(w.db, code) != {} {
      var es := OnApp(w.db, code, job);
      var s1 := Do(Alone(w), es[0]);
      Follow([Alone(w), s1, Do(s1, es[1])], es);
    }
  }

  lemma GrantRuns(w: World, code: string, user: string, role: string)
    ensures Run(Alone(w), Statements(w, C.Grant(code, user, role))).w == C.Effect(w, C.Grant(code, user, role))
  {
    if RoleIds(w.db, code, role) != {} {
      var es := Statements(w, C.Grant(code, user, role));
      var s1 := Do(Alone(w), es[0]);
      Follow([Alone(w), s1, Do(s1, es[1])], es);
    }
  }

  lemma LinkRuns(w: World, code: string, role: string, perm: string)
    ensures Run(Alone(w), Statements(w, C.AddPermToRole(code, role, perm))).w
         == C.Effect(w, C.AddPermToRole(code, role, perm))
  {
    if RoleIds(w.db, code, role) != {} && PermIds(w.db, code, perm) != {} {
      var es := Statements(w, C.AddPermToRole(code, role, perm));
      var s1 := Do(Alone(w), es[0]);
      var s2 := Do(s1, es[1]);
      Follow([Alone(w), s1, s2, Do(s2, es[2])], es);
    }
  }

  /** The sequential effect of every operation is what its statements, uninterrupted, do. */
  lemma EffectIsARun(w: World, c: C.Command)
    ensures Run(Alone(w), Statements(w, c)).w == C.Effect(w, c)
  {
    match c
    case CreateApp(code, name, description) => OneStep(Alone(w), CreateApp(name, code, description));
    case UpdateApp(code, patch) => OneStep(Alone(w), SetApp(code, patch));
    case DeleteApp(code) => OneStep(Alone(w), DeleteApp(code));
    case Grant(code, user, role) => GrantRuns(w, code, user, role);
    case Revoke(code, user, role) => OneStep(Alone(w), Revoke(code, user, role));
    case AddPermToRole(code, role, perm) => LinkRuns(w, code, role, perm);
    case RemovePermFromRole(code, role, perm) => OneStep(Alone(w), Unlink(code, role, perm));
    case CreateRole(code, role, _) => OnAppRuns(w, code, NewRole(role));
    case CreatePerm(code, perm, name) => OnAppRuns(w, code, NewPerm(perm, name));
    case DeleteRole(code, role) => OnAppRuns(w, code, DropRole(role));
    case DeletePerm(code, perm) => OnAppRuns(w, code, DropPerm(perm));
    case UpdateRole(_, _) =>
    case UpdatePerm(code, perm, name) => OnAppRuns(w, code, Rename(perm, name));
  }
}
