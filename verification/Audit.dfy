/** What the audit table and the session cache hold. */
module Audit {
  import opened Basics
  import opened Commands

  datatype Session = Session(userId: int, username: string, realName: string)
  datatype ConsoleUser = ConsoleUser(id: int, username: string, passwordHash: string, realName: string)

  datatype AuditRow = AuditRow(operatorId: int, operatorName: string, appCode: string, action: string,
                               targetType: string, targetId: string, targetName: string,
                               objectType: string, objectId: string)
  {
    function On(kind: string, id: string): AuditRow { this.(objectType := kind, objectId := id) }
  }

  function SessionOf(user: ConsoleUser): Session {
    Session(user.id, user.username, user.realName)
  }

  /** The row a handler writes for the operation it carried out. */
  function AuditOf(s: Session, c: Command): AuditRow {
    match c
    case CreateApp(code, name, _) => Row(s, code, "CREATE_APP", "APP", code, name)
    case UpdateApp(code, _) => Row(s, code, "UPDATE_APP", "APP", code, "")
    case DeleteApp(code) => Row(s, code, "DELETE_APP", "APP", code, "")
    case Grant(code, user, role) => Row(s, code, "USER_GRANT_ROLE", "USER", user, "").On("ROLE", role)
    case Revoke(code, user, role) => Row(s, code, "USER_REVOKE_ROLE", "USER", user, "").On("ROLE", role)
    case AddPermToRole(code, role, perm) => Row(s, code, "ROLE_ADD_PERM", "ROLE", role, "").On("PERM", perm)
    case RemovePermFromRole(code, role, perm) => Row(s, code, "ROLE_REMOVE_PERM", "ROLE", role, "").On("PERM", perm)
    case CreateRole(code, role, name) => Row(s, code, "CREATE_ROLE", "ROLE", role, name)
    case CreatePerm(code, perm, name) => Row(s, code, "CREATE_PERM", "PERM", perm, name)
    case DeleteRole(code, role) => Row(s, code, "DELETE_ROLE", "ROLE", role, "")
    case DeletePerm(code, perm) => Row(s, code, "DELETE_PERM", "PERM", perm, "")
    case UpdateRole(code, role) => Row(s, code, "UPDATE_ROLE", "ROLE", role, "")
    case UpdatePerm(code, perm, _) => Row(s, code, "UPDATE_PERM", "PERM", perm, "")
  }

  function Row(s: Session, code: string, action: string, kind: string, target: string, name: string): AuditRow {
    AuditRow(s.userId, s.realName, code, action, kind, target, name, "", "")
  }

  // ---- what a reader of the table learns ------------------------------------------------------------------

  /** The operation a row tells of, by its action, its types and its ids; the columns nobody logs are blank. */
  function ReadBack(row: AuditRow): Option<Command> {
    match (row.action, row.targetType, row.objectType)
    case ("CREATE_APP", "APP", "") => Some(CreateApp(row.targetId, row.targetName, ""))
    case ("UPDATE_APP", "APP", "") => Some(UpdateApp(row.targetId, NOTHING))
    case ("DELETE_APP", "APP", "") => Some(DeleteApp(row.targetId))
    case ("USER_GRANT_ROLE", "USER", "ROLE") => Some(Grant(row.appCode, row.targetId, row.objectId))
    case ("USER_REVOKE_ROLE", "USER", "ROLE") => Some(Revoke(row.appCode, row.targetId, row.objectId))
    case ("ROLE_ADD_PERM", "ROLE", "PERM") => Some(AddPermToRole(row.appCode, row.targetId, row.objectId))
    case ("ROLE_REMOVE_PERM", "ROLE", "PERM") => Some(RemovePermFromRole(row.appCode, row.targetId, row.objectId))
    case ("CREATE_ROLE", "ROLE", "") => Some(CreateRole(row.appCode, row.targetId, row.targetName))
    case ("CREATE_PERM", "PERM", "") => Some(CreatePerm(row.appCode, row.targetId, row.targetName))
    case ("DELETE_ROLE", "ROLE", "") => Some(DeleteRole(row.appCode, row.targetId))
    case ("DELETE_PERM", "PERM", "") => Some(DeletePerm(row.appCode, row.targetId))
    case ("UPDATE_ROLE", "ROLE", "") => Some(UpdateRole(row.appCode, row.targetId))
    case ("UPDATE_PERM", "PERM", "") => Some(UpdatePerm(row.appCode, row.targetId, None))
    case _ => None
  }

  /** An operation without what its row does not record. */
  function Logged(c: Command): Command {
    match c
    case CreateApp(code, name, _) => CreateApp(code, name, "")
    case UpdateApp(code, _) => UpdateApp(code, NOTHING)
    case UpdatePerm(code, key, _) => UpdatePerm(code, key, None)
    case _ => c
  }

  /** The row names its operator, its app and the operation carried out, and says nothing else. */
  ghost predicate TellsOf(row: AuditRow, s: Session, c: Command) {
    && row.operatorId == s.userId && row.operatorName == s.realName && row.appCode == c.code
    && ReadBack(row) == Some(Logged(c))
    && (row.objectType == "" ==> row.objectId == "")
    && (!c.CreateApp? && !c.CreateRole? && !c.CreatePerm? ==> row.targetName == "")
  }

  lemma RowTellsOf(s: Session, c: Command)
    ensures TellsOf(AuditOf(s, c), s, c)
  {
  }

  /** A row leaves no choice: only the one the handler writes tells of the operation. */
  lemma OnlyRowTellsOf(row: AuditRow, s: Session, c: Command)
    ensures TellsOf(row, s, c) <==> row == AuditOf(s, c)
  {
  }

  /** So by one operator, two operations leave the same row exactly when they differ in nothing that is logged. */
  lemma RowIdentifiesDeed(s: Session, c: Command, d: Command)
    ensures AuditOf(s, c) == AuditOf(s, d) <==> Logged(c) == Logged(d)
  {
    RowTellsOf(s, c);
    RowTellsOf(s, d);
  }
}
