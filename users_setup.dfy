/**
 * The one-time setup endpoints: creating the first superuser, guarded by a
 * server-side secret and disabled once any superuser exists, and the
 * secret check in front of remote migration.
 */
module Setup {
  import opened Wrappers
  import Http
  import Users

  const MinPasswordLength: int := 8

  /** The request body of the create-admin endpoint. */
  datatype AdminRequest = AdminRequest(
    secret: Option<string>,
    username: Option<string>,
    email: Option<string>,
    password: Option<string>)

  /**
   * The guard chain of `SetupAdminView.post`, in order: an existing
   * superuser, an unconfigured secret and a wrong secret are refused with
   * 403; a missing field and a short password with 400; otherwise 201.
   */
  function AdminDecision(superuserExists: bool, configured: Option<string>, req: AdminRequest): (code: int)
    ensures superuserExists ==> code == Http.Forbidden
    ensures !superuserExists && !Given(configured) ==> code == Http.Forbidden
    ensures !superuserExists && Given(configured) && req.secret != configured ==> code == Http.Forbidden
    ensures code == Http.Created <==>
      && !superuserExists && Given(configured) && req.secret == configured
      && Given(req.username) && Given(req.email) && Given(req.password)
      && |req.password.value| >= MinPasswordLength
    ensures code in {Http.Forbidden, Http.BadRequest, Http.Created}
    ensures code == Http.BadRequest <==>
      && !superuserExists && Given(configured) && req.secret == configured
      && (!Given(req.username) || !Given(req.email) || !Given(req.password)
          || |req.password.value| < MinPasswordLength)
  {
    if superuserExists then Http.Forbidden
    else if !Given(configured) then Http.Forbidden
    else if req.secret != configured then Http.Forbidden
    else if !(Given(req.username) && Given(req.email) && Given(req.password)) then Http.BadRequest
    else if |req.password.value| < MinPasswordLength then Http.BadRequest
    else Http.Created
  }

  /** The row `create_superuser` adds: staff and superuser, active, with the model's other defaults. */
  function Superuser(id: nat, username: string, email: string, now: int): (u: Users.User)
    ensures u.isSuperuser && u.isStaff && u.isActive
    ensures u.id == id && u.username == username && u.email == email
  {
    Users.NewUser(id, username, email, now).(isStaff := true, isSuperuser := true)
  }

  /**
   * The whole response of `SetupAdminView.post` against the rows `us`:
   * the guard chain, and then `create_superuser`, whose insert violates a
   * unique column (an `IntegrityError`, which the view does not catch: a
   * 500) when the username or the email is already taken.
   */
  function AdminResponse(us: seq<Users.User>, configured: Option<string>, req: AdminRequest): (code: int)
    ensures code == Http.ServerError <==>
      AdminDecision(Users.AnySuperuser(us), configured, req) == Http.Created
      && Users.Taken(us, req.username.value, req.email.value)
    ensures code != Http.ServerError ==> code == AdminDecision(Users.AnySuperuser(us), configured, req)
    ensures code == Http.Created ==> !Users.Taken(us, req.username.value, req.email.value)
  {
    var decision := AdminDecision(Users.AnySuperuser(us), configured, req);
    if decision == Http.Created && Users.Taken(us, req.username.value, req.email.value) then Http.ServerError
    else decision
  }

  /**
   * `SetupAdminView.post` against the users table. `configured` is the
   * server's setup secret. On 201 one superuser row is appended, which
   * keeps usernames and emails unique and closes the endpoint: every
   * later call is refused with 403. Every other outcome, the 500 of a
   * taken username or email included, leaves the table as it was.
   */
  method CreateAdmin(table: Users.UserTable, configured: Option<string>, req: AdminRequest, now: int)
    returns (code: int)
    modifies table
    ensures code == AdminResponse(old(table.users), configured, req)
    ensures code == Http.Created ==>
      table.users == old(table.users) + [Superuser(|old(table.users)|, req.username.value, req.email.value, now)]
    ensures code != Http.Created ==> table.users == old(table.users)
    ensures Users.UniqueIdentities(old(table.users)) ==> Users.UniqueIdentities(table.users)
    ensures code == Http.Created ==> Users.AnySuperuser(table.users)
    ensures forall later :: code == Http.Created ==>
      AdminDecision(Users.AnySuperuser(table.users), configured, later) == Http.Forbidden
  {
    code := AdminResponse(table.users, configured, req);
    if code == Http.Created {
      var u := Superuser(|table.users|, req.username.value, req.email.value, now);
      if Users.UniqueIdentities(table.users) {
        Users.AppendFreeKeepsUnique(table.users, u);
      }
      var id := table.Add(u);
      assert table.users[id].isSuperuser;
    }
  }

  /** `request.query_params.get('secret') or request.data.get('secret')`. */
  function ProvidedSecret(query: Option<string>, body: Option<string>): (s: Option<string>)
    ensures Given(query) ==> s == query
    ensures !Given(query) ==> s == body
  {
    if Given(query) then query else body
  }

  /**
   * The secret check of `MigrateDatabaseView._run_migrate`: refused (403)
   * when no secret is configured or the provided one differs; otherwise
   * the migration runs (200).
   */
  function MigrateGate(configured: Option<string>, query: Option<string>, body: Option<string>): (code: int)
    ensures code == Http.Ok <==> Given(configured) && ProvidedSecret(query, body) == configured
    ensures code != Http.Ok ==> code == Http.Forbidden
  {
    if !Given(configured) then Http.Forbidden
    else if ProvidedSecret(query, body) != configured then Http.Forbidden
    else Http.Ok
  }

  /** A non-empty query secret decides alone: the body secret is then never consulted. */
  lemma QuerySecretTakesPrecedence(configured: Option<string>, query: Option<string>, body1: Option<string>, body2: Option<string>)
    requires Given(query)
    ensures MigrateGate(configured, query, body1) == MigrateGate(configured, query, body2)
  {
  }
}
