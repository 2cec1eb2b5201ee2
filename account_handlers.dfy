/** The reply of each event-bus handler of the account verticle, as a pure
    function of what the SQL engine reported, together with whether the
    handler sets the `"accounts"` cache flag. */
module AccountHandlers {
  import opened Wrappers
  import opened AccountClasses
  import opened AccountRows

  const FAILED := "failed"
  const NO_USER := "User does not exist"
  const USER_DELETED_SUCCESS := "User deleted successfully"
  const CACHE_ADDRESS := "accounts"
  const BACKEND_PERMISSION_CREATION_FAILED := "Failed to create backend permissions"
  const BACKEND_PERMISSION_UPDATE_FAILED := "Failed to update backend permissions"
  const BACKEND_PERMISSION_DELETED := "Backend Permissions were successfully deleted!"
  const BACKEND_PERMISSION_DELETE_FAILED := "Failed to delete backend permissions"
  const NO_BACKEND_PERMISSION := "No backend permissions found"

  /** What the SQL engine reports for one statement: a failure, or the
      affected-row count together with the rows it returned. */
  datatype QueryOutcome = Failed | Done(rowCount: nat, rows: seq<Row>)

  /** The body of a successful reply. */
  datatype Payload =
    | UserPayload(user: User)
    | UserList(users: seq<User>)
    | PermissionsPayload(permissions: BackendPermissions)
    | PermissionsList(permissionsList: seq<BackendPermissions>)
    | FullUserPayload(fullUser: FullUser)
    | FullUserList(fullUsers: seq<FullUser>)
    | Text(text: string)

  /** `message.reply(payload)` or `message.fail(code, message)`; `NoReply`
      when the handler throws before it answers. */
  datatype Reply = Reply(payload: Payload) | Fail(code: int, message: string) | NoReply

  /** The reply a handler sends and whether it calls `setCacheFlag`. */
  datatype Handled = Handled(reply: Reply, setsCacheFlag: bool)

  /** A data-changing statement succeeded and touched at least one row. */
  predicate ChangedRows(outcome: QueryOutcome) {
    outcome.Done? && outcome.rowCount > 0
  }

  predicate AllUserRows(rows: seq<Row>) {
    forall i :: 0 <= i < |rows| ==> IsUserRow(rows[i])
  }

  predicate AllPermissionsRows(rows: seq<Row>) {
    forall i :: 0 <= i < |rows| ==> IsPermissionsRow(rows[i])
  }

  predicate AllFullUserRows(rows: seq<Row>) {
    forall i :: 0 <= i < |rows| ==> IsUserRow(rows[i]) && IsPermissionsRow(rows[i])
  }

  // ------------------------------------------------------------------ users

  /** `process.account.getAllUsers`: every row decoded, in order; no rows
      is an empty list, never a failure. */
  function GetAllUsers(outcome: QueryOutcome): (h: Handled)
    requires outcome.Done? ==> AllUserRows(outcome.rows)
    ensures !h.setsCacheFlag
    ensures outcome.Failed? ==> h.reply == Fail(500, FAILED)
    ensures outcome.Done? ==>
      && h.reply.Reply? && h.reply.payload.UserList?
      && |h.reply.payload.users| == |outcome.rows|
      && forall i :: 0 <= i < |outcome.rows| ==> h.reply.payload.users[i] == MakeUserObject(outcome.rows[i])
  {
    match outcome
    case Failed => Handled(Fail(500, FAILED), false)
    case Done(_, rows) =>
      if |rows| > 0 then
        Handled(Reply(UserList(seq(|rows|, i requires 0 <= i < |rows| => MakeUserObject(rows[i])))), false)
      else
        Handled(Reply(UserList([])), false)
  }

  /** `process.account.getUserById`: the first row only. */
  function GetUserById(outcome: QueryOutcome): (h: Handled)
    requires outcome.Done? && |outcome.rows| > 0 ==> IsUserRow(outcome.rows[0])
    ensures !h.setsCacheFlag
    ensures outcome.Failed? ==> h.reply == Fail(500, FAILED)
    ensures outcome.Done? && |outcome.rows| == 0 ==> h.reply == Fail(404, NO_USER)
    ensures outcome.Done? && |outcome.rows| > 0 ==> h.reply == Reply(UserPayload(MakeUserObject(outcome.rows[0])))
  {
    match outcome
    case Failed => Handled(Fail(500, FAILED), false)
    case Done(_, rows) =>
      if |rows| > 0 then Handled(Reply(UserPayload(MakeUserObject(rows[0]))), false)
      else Handled(Fail(404, NO_USER), false)
  }

  /** `process.account.createUser`. `generatedId` is the first column of
      the generated-keys row, `None` when the driver reports no such row or
      a null column: the handler then throws, after the insert, before it
      sets the flag or replies. Otherwise any successful insert sets the
      flag, whatever its row count, and the reply carries the generated id
      with the request's email and its plain, unhashed password. A failure
      is a 400, not a 500. */
  function CreateUser(body: UserCreation, outcome: QueryOutcome, generatedId: Option<int>): (h: Handled)
    ensures h.setsCacheFlag <==> outcome.Done? && generatedId.Some?
    ensures h.reply.Reply? <==> h.setsCacheFlag
    ensures outcome.Failed? ==> h.reply == Fail(400, FAILED)
    ensures outcome.Done? && generatedId.None? ==> h.reply == NoReply
    ensures h.reply.Reply? ==> h.reply.payload == UserPayload(User(generatedId.value, body.email, body.password))
  {
    match outcome
    case Failed => Handled(Fail(400, FAILED), false)
    case Done(_, _) =>
      match generatedId
      case None => Handled(NoReply, false)
      case Some(id) => Handled(Reply(UserPayload(User(id, body.email, body.password))), true)
  }

  /** `process.account.updateUser`: the flag is set exactly when the reply
      is a success, which is exactly when the UPDATE touched a row. */
  function UpdateUser(body: User, outcome: QueryOutcome): (h: Handled)
    ensures h.setsCacheFlag <==> ChangedRows(outcome)
    ensures h.reply.Reply? <==> h.setsCacheFlag
    ensures h.reply.Reply? ==> h.reply.payload == UserPayload(body)
    ensures outcome.Failed? ==> h.reply == Fail(500, FAILED)
    ensures outcome.Done? && outcome.rowCount == 0 ==> h.reply == Fail(404, NO_USER)
  {
    match outcome
    case Failed => Handled(Fail(500, FAILED), false)
    case Done(rowCount, _) =>
      if rowCount > 0 then Handled(Reply(UserPayload(body)), true)
      else Handled(Fail(404, NO_USER), false)
  }

  /** How the transaction around the two DELETE statements ended. */
  datatype Transaction = Committed | RolledBack

  /** `process.account.deleteUser`. The transaction's failure handler is
      registered first, so a rolled-back transaction replies 500. The
      completion handler then runs in every case and inspects only the
      users DELETE (`None` when the transaction never ran it); it sets the
      flag whenever that statement removed a row, even after a rollback.
      The transaction commits only when the permissions DELETE, whose future
      the transaction block returns, succeeded; beyond that its outcome and
      row count are never consulted. */
  function DeleteUser(transaction: Transaction, usersDelete: Option<QueryOutcome>,
                      permissionsDelete: QueryOutcome): (h: Handled)
    requires transaction.Committed? ==> usersDelete.Some? && permissionsDelete.Done?
    ensures h.setsCacheFlag <==> usersDelete.Some? && ChangedRows(usersDelete.value)
    ensures h.reply.Reply? <==> transaction.Committed? && h.setsCacheFlag
    ensures h.reply.Reply? ==> h.reply.payload == Text(USER_DELETED_SUCCESS)
    ensures transaction.RolledBack? || usersDelete == Some(Failed) ==> h.reply == Fail(500, FAILED)
    ensures permissionsDelete.Failed? ==> h.reply == Fail(500, FAILED)
    ensures transaction.Committed? && usersDelete.value.Done? && usersDelete.value.rowCount == 0 ==>
      h.reply == Fail(404, NO_USER)
  {
    var flag := usersDelete.Some? && usersDelete.value.Done? && usersDelete.value.rowCount > 0;
    if transaction.RolledBack? then
      Handled(Fail(500, FAILED), flag)
    else
      match usersDelete.value
      case Failed => Handled(Fail(500, FAILED), false)
      case Done(rowCount, _) =>
        if rowCount > 0 then Handled(Reply(Text(USER_DELETED_SUCCESS)), true)
        else Handled(Fail(404, NO_USER), false)
  }

  /** Once the transaction's end is known, the reply and the flag do not
      depend on what the permissions DELETE reported. */
  lemma DeleteUserIgnoresPermissionsDelete(transaction: Transaction, usersDelete: Option<QueryOutcome>,
                                           p1: QueryOutcome, p2: QueryOutcome)
    requires transaction.Committed? ==> usersDelete.Some? && p1.Done? && p2.Done?
    ensures DeleteUser(transaction, usersDelete, p1) == DeleteUser(transaction, usersDelete, p2)
  {
  }

  // ------------------------------------------------------ backend permissions

  /** `process.account.getAllBackendPermissions`. */
  function GetAllBackendPermissions(outcome: QueryOutcome): (h: Handled)
    requires outcome.Done? ==> AllPermissionsRows(outcome.rows)
    ensures !h.setsCacheFlag
    ensures outcome.Failed? ==> h.reply == Fail(500, FAILED)
    ensures outcome.Done? ==>
      && h.reply.Reply? && h.reply.payload.PermissionsList?
      && |h.reply.payload.permissionsList| == |outcome.rows|
      && forall i :: 0 <= i < |outcome.rows| ==>
           h.reply.payload.permissionsList[i] == MakeBackendPermissionsObject(outcome.rows[i])
  {
    match outcome
    case Failed => Handled(Fail(500, FAILED), false)
    case Done(_, rows) =>
      if |rows| > 0 then
        Handled(Reply(PermissionsList(seq(|rows|, i requires 0 <= i < |rows| => MakeBackendPermissionsObject(rows[i])))), false)
      else
        Handled(Reply(PermissionsList([])), false)
  }

  /** `process.account.getBackendPermissionsByUserId`: the first row only. */
  function GetBackendPermissionsByUserId(outcome: QueryOutcome): (h: Handled)
    requires outcome.Done? && |outcome.rows| > 0 ==> IsPermissionsRow(outcome.rows[0])
    ensures !h.setsCacheFlag
    ensures outcome.Failed? ==> h.reply == Fail(500, FAILED)
    ensures outcome.Done? && |outcome.rows| == 0 ==> h.reply == Fail(404, NO_BACKEND_PERMISSION)
    ensures outcome.Done? && |outcome.rows| > 0 ==>
      h.reply == Reply(PermissionsPayload(MakeBackendPermissionsObject(outcome.rows[0])))
  {
    match outcome
    case Failed => Handled(Fail(500, FAILED), false)
    case Done(_, rows) =>
      if |rows| > 0 then Handled(Reply(PermissionsPayload(MakeBackendPermissionsObject(rows[0]))), false)
      else Handled(Fail(404, NO_BACKEND_PERMISSION), false)
  }

  /** `process.account.createBackendPermissions`: echoes the request. */
  function CreateBackendPermissions(body: BackendPermissions, outcome: QueryOutcome): (h: Handled)
    ensures h.setsCacheFlag <==> ChangedRows(outcome)
    ensures h.reply.Reply? <==> h.setsCacheFlag
    ensures h.reply.Reply? ==> h.reply.payload == PermissionsPayload(body)
    ensures outcome.Failed? ==> h.reply == Fail(500, FAILED)
    ensures outcome.Done? && outcome.rowCount == 0 ==> h.reply == Fail(400, BACKEND_PERMISSION_CREATION_FAILED)
  {
    match outcome
    case Failed => Handled(Fail(500, FAILED), false)
    case Done(rowCount, _) =>
      if rowCount > 0 then Handled(Reply(PermissionsPayload(body)), true)
      else Handled(Fail(400, BACKEND_PERMISSION_CREATION_FAILED), false)
  }

  /** `process.account.updateBackendPermissions`: echoes the request. */
  function UpdateBackendPermissions(body: BackendPermissions, outcome: QueryOutcome): (h: Handled)
    ensures h.setsCacheFlag <==> ChangedRows(outcome)
    ensures h.reply.Reply? <==> h.setsCacheFlag
    ensures h.reply.Reply? ==> h.reply.payload == PermissionsPayload(body)
    ensures outcome.Failed? ==> h.reply == Fail(500, FAILED)
    ensures outcome.Done? && outcome.rowCount == 0 ==> h.reply == Fail(400, BACKEND_PERMISSION_UPDATE_FAILED)
  {
    match outcome
    case Failed => Handled(Fail(500, FAILED), false)
    case Done(rowCount, _) =>
      if rowCount > 0 then Handled(Reply(PermissionsPayload(body)), true)
      else Handled(Fail(400, BACKEND_PERMISSION_UPDATE_FAILED), false)
  }

  /** `process.account.deleteBackendPermissions`. */
  function DeleteBackendPermissions(outcome: QueryOutcome): (h: Handled)
    ensures h.setsCacheFlag <==> ChangedRows(outcome)
    ensures h.reply.Reply? <==> h.setsCacheFlag
    ensures h.reply.Reply? ==> h.reply.payload == Text(BACKEND_PERMISSION_DELETED)
    ensures outcome.Failed? ==> h.reply == Fail(500, FAILED)
    ensures outcome.Done? && outcome.rowCount == 0 ==> h.reply == Fail(400, BACKEND_PERMISSION_DELETE_FAILED)
  {
    match outcome
    case Failed => Handled(Fail(500, FAILED), false)
    case Done(rowCount, _) =>
      if rowCount > 0 then Handled(Reply(Text(BACKEND_PERMISSION_DELETED)), true)
      else Handled(Fail(400, BACKEND_PERMISSION_DELETE_FAILED), false)
  }

  // ------------------------------------------------------------ full users

  /** `process.account.getAllFullUserInfo`: the join rows decoded, in order;
      every reply item satisfies the `FullUser` id invariant. */
  function GetAllFullUser(outcome: QueryOutcome): (h: Handled)
    requires outcome.Done? ==> AllFullUserRows(outcome.rows)
    ensures !h.setsCacheFlag
    ensures outcome.Failed? ==> h.reply == Fail(500, FAILED)
    ensures outcome.Done? ==>
      && h.reply.Reply? && h.reply.payload.FullUserList?
      && |h.reply.payload.fullUsers| == |outcome.rows|
      && forall i :: 0 <= i < |outcome.rows| ==>
           var u := h.reply.payload.fullUsers[i];
           && u.user == MakeUserObject(outcome.rows[i])
           && u.backendPermissions == MakeBackendPermissionsObject(outcome.rows[i])
           && u.user.userId == u.backendPermissions.userId
  {
    match outcome
    case Failed => Handled(Fail(500, FAILED), false)
    case Done(_, rows) =>
      if |rows| > 0 then
        Handled(Reply(FullUserList(seq(|rows|, i requires 0 <= i < |rows| => MakeFullUserObject(rows[i]).value))), false)
      else
        Handled(Reply(FullUserList([])), false)
  }

  /** The single full-user lookups (`getFullUserByEmail`,
      `getFullUserByUserId`) share one reply rule: the first row only, 404
      with `NO_USER` when there is none. */
  function FirstFullUser(outcome: QueryOutcome): (h: Handled)
    requires outcome.Done? && |outcome.rows| > 0 ==>
      IsUserRow(outcome.rows[0]) && IsPermissionsRow(outcome.rows[0])
    ensures !h.setsCacheFlag
    ensures outcome.Failed? ==> h.reply == Fail(500, FAILED)
    ensures outcome.Done? && |outcome.rows| == 0 ==> h.reply == Fail(404, NO_USER)
    ensures outcome.Done? && |outcome.rows| > 0 ==>
      && h.reply.Reply? && h.reply.payload.FullUserPayload?
      && h.reply.payload.fullUser.user == MakeUserObject(outcome.rows[0])
      && h.reply.payload.fullUser.backendPermissions == MakeBackendPermissionsObject(outcome.rows[0])
      && h.reply.payload.fullUser.user.userId == h.reply.payload.fullUser.backendPermissions.userId
  {
    match outcome
    case Failed => Handled(Fail(500, FAILED), false)
    case Done(_, rows) =>
      if |rows| > 0 then Handled(Reply(FullUserPayload(MakeFullUserObject(rows[0]).value)), false)
      else Handled(Fail(404, NO_USER), false)
  }

  // ------------------------------------------ the deleteUser transaction

  /** The two tables deleteUser touches, keyed by user id. */
  datatype Tables = Tables(users: map<int, User>, backendPermissions: map<int, BackendPermissions>)

  /** The row counts of the two DELETE statements and the tables after commit. */
  datatype Deletion = Deletion(tables: Tables, usersDeleted: nat, permissionsDeleted: nat)

  /** Both DELETE statements of deleteUser, committed together. */
  function CommitDeleteUser(t: Tables, userId: int): (d: Deletion)
    ensures userId !in d.tables.users && userId !in d.tables.backendPermissions
    ensures forall k :: k != userId ==>
      (k in d.tables.users <==> k in t.users) && (k in t.users ==> d.tables.users[k] == t.users[k])
    ensures forall k :: k != userId ==>
      (k in d.tables.backendPermissions <==> k in t.backendPermissions)
      && (k in t.backendPermissions ==> d.tables.backendPermissions[k] == t.backendPermissions[k])
    ensures d.usersDeleted > 0 <==> userId in t.users
    ensures d.permissionsDeleted > 0 <==> userId in t.backendPermissions
  {
    Deletion(
      Tables(t.users - {userId}, t.backendPermissions - {userId}),
      if userId in t.users then 1 else 0,
      if userId in t.backendPermissions then 1 else 0)
  }

  /** The tables after the transaction: all of it or none of it, and no
      other user's rows are touched. */
  function DeleteUserTransaction(t: Tables, userId: int, transaction: Transaction): (r: Tables)
    ensures transaction.RolledBack? ==> r == t
    ensures transaction.Committed? ==> userId !in r.users && userId !in r.backendPermissions
    ensures forall k :: k != userId ==>
      (k in r.users <==> k in t.users) && (k in t.users ==> r.users[k] == t.users[k])
    ensures forall k :: k != userId ==>
      (k in r.backendPermissions <==> k in t.backendPermissions)
      && (k in t.backendPermissions ==> r.backendPermissions[k] == t.backendPermissions[k])
  {
    if transaction.Committed? then CommitDeleteUser(t, userId).tables else t
  }

  /** Either both of the user's rows are gone, or both are as they were;
      every other user's rows are as they were in either case. */
  lemma DeleteUserAtomic(t: Tables, userId: int, transaction: Transaction)
    ensures var r := DeleteUserTransaction(t, userId, transaction);
      || (userId !in r.users && userId !in r.backendPermissions)
      || (r.users == t.users && r.backendPermissions == t.backendPermissions)
    ensures var r := DeleteUserTransaction(t, userId, transaction);
      && r.users - {userId} == t.users - {userId}
      && r.backendPermissions - {userId} == t.backendPermissions - {userId}
  {
  }

  /** A committed deleteUser succeeds, and sets the flag, exactly when the
      user existed. A permissions row whose user is missing is still
      deleted, but the reply is 404 and the flag stays unset. */
  lemma DeleteUserEndToEnd(t: Tables, userId: int)
    ensures var d := CommitDeleteUser(t, userId);
      var h := DeleteUser(Committed, Some(Done(d.usersDeleted, [])), Done(d.permissionsDeleted, []));
      && (h.reply.Reply? <==> userId in t.users)
      && (h.setsCacheFlag <==> userId in t.users)
      && (userId !in t.users ==> h.reply == Fail(404, NO_USER))
      && (userId !in t.users && userId in t.backendPermissions ==>
            userId !in d.tables.backendPermissions && !h.setsCacheFlag)
  {
  }
}
