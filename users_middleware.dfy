/** The request validators (UsersMiddleware). Four read the body and the
    store and decide; `extractUserId` writes the path id into the body. */
module UsersMiddleware {
  import opened Users
  import opened Dao

  /** `validateRequiredUserBodyFields`: passes when a body exists and its
      email and password are both truthy, otherwise 400. */
  function ValidateRequiredUserBodyFields(body: Option<PartialUser>): (r: Outcome)
    ensures r == Allow || r == BadRequest
    ensures r == Allow <==> body.Some? && body.value.email.Some? && body.value.email.value != ""
                                       && body.value.password.Some? && body.value.password.value != ""
  {
    if body.Some? && Truthy(body.value.email) && Truthy(body.value.password) then Allow
    else BadRequest
  }

  /** `validateSameEmailDoesntExist`: 400 when `getUserByEmail` finds a record
      with exactly the body's email. A body without an email matches no
      record, because every stored email is a string. */
  function ValidateSameEmailDoesntExist(body: PartialUser, users: seq<UserDto>): (r: Outcome)
    ensures r == Allow || r == BadRequest
    ensures r == BadRequest <==>
      body.email.Some? && exists i :: 0 <= i < |users| && users[i].email == body.email.value
  {
    if body.email.Some? && FindByEmail(users, body.email.value).Some? then BadRequest
    else Allow
  }

  /** `validatePatchEmail`: both of its branches pass the request on. */
  function ValidatePatchEmail(body: PartialUser): (r: Outcome)
    ensures r == Allow
  {
    if Truthy(body.email) then Allow else Allow
  }

  /** `validateUserExists`: 404 exactly when no record has the path id. */
  function ValidateUserExists(userId: string, users: seq<UserDto>): (r: Outcome)
    ensures r == Allow || r == NotFound
    ensures r == NotFound <==> forall i :: 0 <= i < |users| ==> users[i].id != userId
  {
    if FindById(users, userId).Some? then Allow else NotFound
  }

  /** The body after `req.body.id = req.params.userId`. */
  function WithUserId(body: PartialUser, userId: string): (r: PartialUser)
    ensures r.id == Some(userId)
    ensures r.email == body.email && r.password == body.password
    ensures r.firstName == body.firstName && r.lastName == body.lastName
    ensures r.permissionLevel == body.permissionLevel
  {
    body.(id := Some(userId))
  }

  /** The parts of an Express request the middleware reads and writes. */
  class Request {
    var body: PartialUser

    constructor (body: PartialUser)
      ensures this.body == body
    {
      this.body := body;
    }
  }

  /** `extractUserId`: writes the path id into the request body in place. */
  method ExtractUserId(req: Request, userId: string)
    modifies req
    ensures req.body == WithUserId(old(req.body), userId)
  {
    req.body := req.body.(id := Some(userId));
  }
}
