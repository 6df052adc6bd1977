/** The request pipeline (UsersRoutes, behind the application-wide header
    check): for each method and path, the ordered list of steps Express runs.
    A request is dispatched by running its steps against a snapshot of the
    store until a gate denies it, a handler answers it, or the steps run out
    (Express then answers 404). */
module UsersRoutes {
  import opened Users
  import opened Dao
  import opened AuthMiddleware
  import opened UsersMiddleware
  import opened UsersService
  import UserConverter

  datatype Verb = GET | POST | PUT | PATCH | DELETE

  datatype Path = UsersPath | UserPath(userId: string)

  /** The parts of an HTTP request the pipeline reads. body-parser always
      supplies a body object, empty when nothing was sent. */
  datatype HttpRequest = HttpRequest(
    verb: Verb,
    path: Path,
    authorization: Option<string>,
    body: PartialUser)

  datatype Gate =
    | AuthorizationHeader        // the application-wide check: a non-empty header
    | UserPermissions            // AuthMiddleware.validateUserPermissions
    | AdminRole                  // AuthMiddleware.validateAdminRole
    | RequiredUserBodyFields     // UsersMiddleware.validateRequiredUserBodyFields
    | SameEmailDoesntExist       // UsersMiddleware.validateSameEmailDoesntExist
    | PatchEmail                 // UsersMiddleware.validatePatchEmail
    | UserExists(userId: string) // UsersMiddleware.validateUserExists

  /** The controller actions that end a request. */
  datatype Handler =
    | List
    | Create
    | Get(userId: string)
    | Remove(userId: string)
    | Put(userId: string)
    | Patch(userId: string)

  datatype Step =
    | SetBodyId(userId: string)  // the `userId` param callback, extractUserId
    | Check(gate: Gate)
    | Handle(handler: Handler)

  datatype Response =
    | Denied(outcome: Outcome)         // 401, 403, 404 or 400 from a gate
    | Listed(users: seq<UserDto>)      // 200
    | Found(user: UserDto)             // 200
    | Created(user: UserDto)           // 201
    | Updated(message: string)         // 200
    | Patched(result: Option<UserDto>) // 200
    | Removed                          // 204
    | Threw                            // the handler threw; nothing is sent
    | Unrouted                         // no handler matched: Express's 404

  /** A response and the store after the request. */
  datatype Reply = Reply(response: Response, users: seq<UserDto>)

  /** The steps registered on `/users` for each method, after the
      application-wide header check. */
  function CollectionSteps(verb: Verb): seq<Step>
  {
    match verb
    case GET => [Check(UserPermissions), Handle(List)]
    case POST => [Check(RequiredUserBodyFields), Check(SameEmailDoesntExist), Handle(Create)]
    case _ => []
  }

  /** The steps registered on `/users/:userId` for each method, after the
      body id is set and the existence check (the route's `all` handler) has
      passed. PUT and PATCH are registered after that route, so they too run
      after the existence check. */
  function MemberSteps(verb: Verb, userId: string): seq<Step>
  {
    match verb
    case GET => [Handle(Get(userId))]
    case DELETE => [Check(AdminRole), Handle(Remove(userId))]
    case PUT => [Check(RequiredUserBodyFields), Handle(Put(userId))]
    case PATCH => [Check(PatchEmail), Handle(Patch(userId))]
    case POST => []
  }

  /** The steps a request meets: every request first meets the header
      check; a `/users/:userId` request then has its body id set and its
      existence checked before anything else. */
  function Steps(verb: Verb, path: Path): (steps: seq<Step>)
    ensures |steps| >= 1 && steps[0] == Check(AuthorizationHeader)
    ensures path.UserPath? ==>
      |steps| >= 3 && steps[1] == SetBodyId(path.userId) && steps[2] == Check(UserExists(path.userId))
  {
    [Check(AuthorizationHeader)] +
      match path
      case UsersPath => CollectionSteps(verb)
      case UserPath(id) => [SetBodyId(id), Check(UserExists(id))] + MemberSteps(verb, id)
  }

  function Evaluate(gate: Gate, authorization: Option<string>, body: PartialUser, users: seq<UserDto>): Outcome
  {
    match gate
    case AuthorizationHeader => if Truthy(authorization) then Allow else Unauthenticated
    case UserPermissions => ValidateUserPermissions(authorization, users)
    case AdminRole => ValidateAdminRole(authorization, users)
    case RequiredUserBodyFields => ValidateRequiredUserBodyFields(Some(body))
    case SameEmailDoesntExist => ValidateSameEmailDoesntExist(body, users)
    case PatchEmail => ValidatePatchEmail(body)
    case UserExists(id) => ValidateUserExists(id, users)
  }

  /** The record the create and put handlers build: `toModel` of the body
      with its password replaced by the hash. The required-fields gate runs
      before both handlers, so there the body always has an email and a
      password. Without them the source would hash `undefined` (which throws)
      or store a record lacking an email; the model answers `Threw` instead. */
  function HashedRecord(body: PartialUser, id: string, hash: string -> string): (r: Option<UserDto>)
    ensures r.None? <==> body.email.None? || body.password.None?
    ensures r.Some? ==>
      && r.value.id == id
      && r.value.email == body.email.value
      && r.value.password == hash(body.password.value)
      && r.value.firstName == body.firstName
      && r.value.lastName == body.lastName
      && r.value.permissionLevel == body.permissionLevel
  {
    if body.email.None? || body.password.None? then None
    else
      var hashed := UserDto(id, body.email.value, hash(body.password.value),
                            body.firstName, body.lastName, body.permissionLevel);
      Some(UserConverter.ToDto(UserConverter.ToModel(hashed)))
  }

  /** The PATCH body after the handler hashes a truthy password; every
      other field is left as sent. */
  function HashedPatch(body: PartialUser, hash: string -> string): (patch: PartialUser)
    ensures Truthy(body.password) ==> patch.password == Some(hash(body.password.value))
    ensures !Truthy(body.password) ==> patch.password == body.password
    ensures patch.(password := body.password) == body
  {
    if Truthy(body.password) then body.(password := Some(hash(body.password.value))) else body
  }

  /** What each controller action answers and does to the store, through
      the service and the store's splices as written. The hash function
      stands for argon2 and `freshId` for the id generator. On an absent id
      remove and put still edit the last record; a request run alone never
      gets there, because the existence check runs first. */
  function Perform(handler: Handler, body: PartialUser, users: seq<UserDto>,
                   freshId: string, hash: string -> string): (r: Reply)
    ensures r.response.Threw? || r.response.Denied? ==> r.users == users
    ensures handler.List? ==> r.response == Listed(users) && r.users == users
    ensures handler.Get? ==>
      && r.users == users
      && (r.response.Found? <==> HasId(users, handler.userId))
      && (r.response.Found? ==> r.response.user.id == handler.userId && r.response.user in users)
      && (!r.response.Found? ==> r.response == Denied(NotFound))
    ensures handler.Create? ==>
      && (r.response.Threw? <==> body.email.None? || body.password.None?)
      && (!r.response.Threw? ==>
            r.response.Created? && r.response.user.id == freshId && r.users == users + [r.response.user])
    ensures handler.Remove? ==>
      && r.response == Removed
      && |r.users| == (if users == [] then 0 else |users| - 1)
      && (!HasId(users, handler.userId) && users != [] ==> r.users == users[..|users| - 1])
    ensures handler.Put? ==>
      && (r.response.Threw? <==> body.email.None? || body.password.None? || body.permissionLevel == Some(GUEST))
      && (!r.response.Threw? ==>
            && r.response == Updated(handler.userId + " updated via put")
            && |r.users| == (if users == [] then 1 else |users|)
            && (!HasId(users, handler.userId) && users != [] ==> r.users[..|users| - 1] == users[..|users| - 1]))
    ensures handler.Patch? ==>
      && |r.users| == |users|
      && r.response == Patched(FindById(r.users, handler.userId))
      && (r.response.result.Some? <==> HasId(users, handler.userId))
  {
    match handler
    case List => Reply(Listed(users), users)
    case Create =>
      (match HashedRecord(body, freshId, hash)
       case None => Reply(Threw, users)
       case Some(user) => Reply(Created(user), users + [user]))
    case Get(id) =>
      (match FindById(users, id)
       case Some(user) =>
         assert user in users by {
           var k :| FirstMatch(users, IdField, id, k) && users[k] == user;
         }
         Reply(Found(user), users)
       case None => Reply(Denied(NotFound), users))
    case Remove(id) => Reply(Removed, RemoveUser(users, id))
    case Put(id) =>
      (match HashedRecord(body, body.id.GetOr(id), hash)
       case None => Reply(Threw, users)
       case Some(payload) =>
         match UpdateRecord(id, payload)
         case Failure(_) => Reply(Threw, users)
         case Success(record) => Reply(Updated(id + " updated via put"), PutUser(users, record)))
    case Patch(id) =>
      var stored := PatchUsers(users, id, HashedPatch(body, hash));
      assert HasId(stored, id) <==> HasId(users, id) by {
        if HasId(users, id) {
          var i :| 0 <= i < |users| && users[i].id == id;
          assert stored[i].id == id;
        }
        if HasId(stored, id) {
          var i :| 0 <= i < |stored| && stored[i].id == id;
          assert users[i].id == id;
        }
      }
      Reply(Patched(FindById(stored, id)), stored)
  }

  /** Runs the steps in order: a denial or a handler ends the request, and
      running out of steps leaves it to Express's 404. A denial never
      changes the store, and steps without a handler can only deny or run
      out. */
  function Run(steps: seq<Step>, authorization: Option<string>, body: PartialUser,
               users: seq<UserDto>, freshId: string, hash: string -> string): (r: Reply)
    ensures r.response.Denied? ==> r.users == users && r.response.outcome != Allow
    ensures (forall i :: 0 <= i < |steps| ==> !steps[i].Handle?) ==>
      r.users == users && (r.response.Denied? || r.response.Unrouted?)
    decreases |steps|
  {
    if steps == [] then Reply(Unrouted, users)
    else
      assert forall i :: 1 <= i < |steps| ==> steps[1..][i - 1] == steps[i];
      match steps[0]
      case SetBodyId(id) => Run(steps[1..], authorization, WithUserId(body, id), users, freshId, hash)
      case Check(gate) =>
        var outcome := Evaluate(gate, authorization, body, users);
        if outcome != Allow then Reply(Denied(outcome), users)
        else Run(steps[1..], authorization, body, users, freshId, hash)
      case Handle(handler) => Perform(handler, body, users, freshId, hash)
  }

  /** A request runs the steps registered for its method and path. Without
      a non-empty Authorization header it is answered 401 and nothing
      changes; any denial leaves the store as it was. */
  function Dispatch(req: HttpRequest, users: seq<UserDto>, freshId: string, hash: string -> string): (r: Reply)
    ensures !Truthy(req.authorization) ==> r == Reply(Denied(Unauthenticated), users)
    ensures r.response.Denied? ==> r.users == users && r.response.outcome != Allow
  {
    Run(Steps(req.verb, req.path), req.authorization, req.body, users, freshId, hash)
  }

  lemma RunCheck(gate: Gate, rest: seq<Step>, authorization: Option<string>, body: PartialUser,
                 users: seq<UserDto>, freshId: string, hash: string -> string)
    ensures Run([Check(gate)] + rest, authorization, body, users, freshId, hash) ==
      var outcome := Evaluate(gate, authorization, body, users);
      if outcome != Allow then Reply(Denied(outcome), users)
      else Run(rest, authorization, body, users, freshId, hash)
  {
    assert ([Check(gate)] + rest)[1..] == rest;
  }

  lemma RunSetBodyId(id: string, rest: seq<Step>, authorization: Option<string>, body: PartialUser,
                     users: seq<UserDto>, freshId: string, hash: string -> string)
    ensures Run([SetBodyId(id)] + rest, authorization, body, users, freshId, hash) ==
            Run(rest, authorization, WithUserId(body, id), users, freshId, hash)
  {
    assert ([SetBodyId(id)] + rest)[1..] == rest;
  }

  /** The `/users` routes written out as a decision table. */
  function CollectionTable(verb: Verb, auth: Option<string>, body: PartialUser, users: seq<UserDto>,
                           freshId: string, hash: string -> string): Reply
  {
    match verb
    case GET =>
      var o := ValidateUserPermissions(auth, users);
      if o != Allow then Reply(Denied(o), users) else Perform(List, body, users, freshId, hash)
    case POST =>
      if !Truthy(body.email) || !Truthy(body.password) then Reply(Denied(BadRequest), users)
      else if HasEmail(users, body.email.value) then Reply(Denied(BadRequest), users)
      else Perform(Create, body, users, freshId, hash)
    case _ => Reply(Unrouted, users)
  }

  /** The `/users/:userId` routes after the existence check, written out as
      a decision table; `body` already carries the path id. */
  function MemberTable(verb: Verb, id: string, auth: Option<string>, body: PartialUser, users: seq<UserDto>,
                       freshId: string, hash: string -> string): Reply
  {
    match verb
    case GET => Perform(Get(id), body, users, freshId, hash)
    case DELETE =>
      var o := ValidateAdminRole(auth, users);
      if o != Allow then Reply(Denied(o), users) else Perform(Remove(id), body, users, freshId, hash)
    case PUT =>
      if !Truthy(body.email) || !Truthy(body.password) then Reply(Denied(BadRequest), users)
      else Perform(Put(id), body, users, freshId, hash)
    case PATCH => Perform(Patch(id), body, users, freshId, hash)
    case POST => Reply(Unrouted, users)
  }

  /** The whole pipeline written out as a decision table. */
  function DecisionTable(req: HttpRequest, users: seq<UserDto>, freshId: string, hash: string -> string): Reply
  {
    var auth := req.authorization;
    if !Truthy(auth) then Reply(Denied(Unauthenticated), users)
    else
      match req.path
      case UsersPath => CollectionTable(req.verb, auth, req.body, users, freshId, hash)
      case UserPath(id) =>
        if !HasId(users, id) then Reply(Denied(NotFound), users)
        else MemberTable(req.verb, id, auth, WithUserId(req.body, id), users, freshId, hash)
  }

  lemma RunCollection(verb: Verb, auth: Option<string>, body: PartialUser, users: seq<UserDto>,
                      freshId: string, hash: string -> string)
    ensures Run(CollectionSteps(verb), auth, body, users, freshId, hash) ==
            CollectionTable(verb, auth, body, users, freshId, hash)
  {
    match verb
    case GET =>
      RunCheck(UserPermissions, [Handle(List)], auth, body, users, freshId, hash);
    case POST =>
      assert CollectionSteps(POST) == [Check(RequiredUserBodyFields)] + [Check(SameEmailDoesntExist), Handle(Create)];
      RunCheck(RequiredUserBodyFields, [Check(SameEmailDoesntExist), Handle(Create)], auth, body, users, freshId, hash);
      RunCheck(SameEmailDoesntExist, [Handle(Create)], auth, body, users, freshId, hash);
    case _ =>
  }

  lemma RunMember(verb: Verb, id: string, auth: Option<string>, body: PartialUser, users: seq<UserDto>,
                  freshId: string, hash: string -> string)
    ensures Run(MemberSteps(verb, id), auth, body, users, freshId, hash) ==
            MemberTable(verb, id, auth, body, users, freshId, hash)
  {
    match verb
    case GET =>
    case DELETE =>
      assert MemberSteps(verb, id) == [Check(AdminRole)] + [Handle(Remove(id))];
      RunCheck(AdminRole, [Handle(Remove(id))], auth, body, users, freshId, hash);
    case PUT =>
      assert MemberSteps(verb, id) == [Check(RequiredUserBodyFields)] + [Handle(Put(id))];
      RunCheck(RequiredUserBodyFields, [Handle(Put(id))], auth, body, users, freshId, hash);
    case PATCH =>
      assert MemberSteps(verb, id) == [Check(PatchEmail)] + [Handle(Patch(id))];
      RunCheck(PatchEmail, [Handle(Patch(id))], auth, body, users, freshId, hash);
    case POST =>
  }

  /** A `/users/:userId` request past the header check: the body id is
      set, an absent id is 404, and an existing id goes on to its method's
      steps. */
  lemma RunUserPath(verb: Verb, id: string, auth: Option<string>, body: PartialUser, users: seq<UserDto>,
                    freshId: string, hash: string -> string)
    ensures Run([SetBodyId(id)] + ([Check(UserExists(id))] + MemberSteps(verb, id)), auth, body, users, freshId, hash) ==
            if !HasId(users, id) then Reply(Denied(NotFound), users)
            else Run(MemberSteps(verb, id), auth, WithUserId(body, id), users, freshId, hash)
  {
    var member := MemberSteps(verb, id);
    RunSetBodyId(id, [Check(UserExists(id))] + member, auth, body, users, freshId, hash);
    RunCheck(UserExists(id), member, auth, WithUserId(body, id), users, freshId, hash);
  }

  /** Running the registered steps computes exactly the decision table. */
  lemma DispatchIsDecisionTable(req: HttpRequest, users: seq<UserDto>, freshId: string, hash: string -> string)
    ensures Dispatch(req, users, freshId, hash) == DecisionTable(req, users, freshId, hash)
  {
    var auth, body := req.authorization, req.body;
    match req.path
    case UsersPath =>
      RunCheck(AuthorizationHeader, CollectionSteps(req.verb), auth, body, users, freshId, hash);
      RunCollection(req.verb, auth, body, users, freshId, hash);
    case UserPath(id) =>
      var rest := [SetBodyId(id)] + ([Check(UserExists(id))] + MemberSteps(req.verb, id));
      assert Steps(req.verb, req.path) == [Check(AuthorizationHeader)] + rest;
      RunCheck(AuthorizationHeader, rest, auth, body, users, freshId, hash);
      RunUserPath(req.verb, id, auth, body, users, freshId, hash);
      RunMember(req.verb, id, auth, WithUserId(body, id), users, freshId, hash);
  }

  /** A `/users` request with a header is answered by its route's table. */
  lemma DispatchCollection(req: HttpRequest, users: seq<UserDto>, freshId: string, hash: string -> string)
    requires req.path == UsersPath && Truthy(req.authorization)
    ensures Dispatch(req, users, freshId, hash) ==
            CollectionTable(req.verb, req.authorization, req.body, users, freshId, hash)
  {
    DispatchIsDecisionTable(req, users, freshId, hash);
  }

  /** A `/users/:userId` request with a header, for an existing id, is
      answered by its route's table with the path id in the body. */
  lemma DispatchMember(req: HttpRequest, users: seq<UserDto>, freshId: string, hash: string -> string)
    requires req.path.UserPath? && HasId(users, req.path.userId) && Truthy(req.authorization)
    ensures Dispatch(req, users, freshId, hash) ==
            MemberTable(req.verb, req.path.userId, req.authorization, WithUserId(req.body, req.path.userId),
                        users, freshId, hash)
  {
    DispatchIsDecisionTable(req, users, freshId, hash);
  }

  /** GET /users lists every record exactly when `validateUserPermissions`
      passes; otherwise it answers with that gate's denial. */
  lemma ListingRequiresUserPermissions(req: HttpRequest, users: seq<UserDto>, freshId: string, hash: string -> string)
    requires req.verb == GET && req.path == UsersPath && Truthy(req.authorization)
    ensures var reply := Dispatch(req, users, freshId, hash);
      && reply.users == users
      && (reply.response == Listed(users) <==> ValidateUserPermissions(req.authorization, users) == Allow)
      && (reply.response != Listed(users) ==>
            reply.response == Denied(ValidateUserPermissions(req.authorization, users)))
  {
    DispatchCollection(req, users, freshId, hash);
  }

  /** A GUEST caller's listing is refused with 403: the listing is never
      narrowed to the caller's own record. */
  lemma GuestListingIsForbidden(t: string, body: PartialUser, users: seq<UserDto>, freshId: string, hash: string -> string)
    requires t != "" && ' ' !in t
    requires FindById(users, t).Some? && FindById(users, t).value.permissionLevel == Some(GUEST)
    ensures Dispatch(HttpRequest(GET, UsersPath, Some(BearerPrefix + t), body), users, freshId, hash).response
            == Denied(Forbidden)
  {
    var req := HttpRequest(GET, UsersPath, Some(BearerPrefix + t), body);
    BearerTokenOfSpaceFree(t);
    ListingRequiresUserPermissions(req, users, freshId, hash);
  }

  /** POST /users checks the required fields, then email uniqueness, then
      appends the body's record under the fresh id with its password hashed. */
  lemma CreateChecksFieldsThenEmail(req: HttpRequest, users: seq<UserDto>, freshId: string, hash: string -> string)
    requires req.verb == POST && req.path == UsersPath && Truthy(req.authorization)
    ensures var b := req.body;
      Dispatch(req, users, freshId, hash) ==
        if !Truthy(b.email) || !Truthy(b.password) then Reply(Denied(BadRequest), users)
        else if exists i :: 0 <= i < |users| && users[i].email == b.email.value then Reply(Denied(BadRequest), users)
        else
          var user := UserDto(freshId, b.email.value, hash(b.password.value), b.firstName, b.lastName, b.permissionLevel);
          Reply(Created(user), users + [user])
  {
    DispatchCollection(req, users, freshId, hash);
  }

  /** Creation has no caller check: any non-empty header gives the same
      answer, so anyone can create a record with any role, ADMIN included. */
  lemma CreateIgnoresCaller(req: HttpRequest, authorization: Option<string>, users: seq<UserDto>,
                            freshId: string, hash: string -> string)
    requires req.verb == POST && req.path == UsersPath
    requires Truthy(req.authorization) && Truthy(authorization)
    ensures Dispatch(req, users, freshId, hash) ==
            Dispatch(req.(authorization := authorization), users, freshId, hash)
  {
    DispatchCollection(req, users, freshId, hash);
    DispatchCollection(req.(authorization := authorization), users, freshId, hash);
  }

  /** A `/users/:userId` request for an absent id is 404, whatever the
      method and whoever the caller, before any other gate; nothing changes. */
  lemma AbsentIdIsNotFound(req: HttpRequest, users: seq<UserDto>, freshId: string, hash: string -> string)
    requires req.path.UserPath? && !HasId(users, req.path.userId) && Truthy(req.authorization)
    ensures Dispatch(req, users, freshId, hash) == Reply(Denied(NotFound), users)
  {
    DispatchIsDecisionTable(req, users, freshId, hash);
  }

  /** GET /users/:userId has no role check: any caller reads any existing
      record. */
  lemma ReadIgnoresCaller(req: HttpRequest, users: seq<UserDto>, freshId: string, hash: string -> string)
    requires req.verb == GET && req.path.UserPath? && HasId(users, req.path.userId)
    requires Truthy(req.authorization)
    ensures var reply := Dispatch(req, users, freshId, hash);
      && reply.users == users
      && reply.response.Found?
      && reply.response.user in users
      && reply.response.user.id == req.path.userId
  {
    DispatchMember(req, users, freshId, hash);
  }

  /** DELETE /users/:userId on an existing id removes exactly that record,
      and does so only when `validateAdminRole` passes. */
  lemma DeleteRequiresAdmin(req: HttpRequest, users: seq<UserDto>, freshId: string, hash: string -> string)
    requires req.verb == DELETE && req.path.UserPath? && HasId(users, req.path.userId)
    requires Truthy(req.authorization)
    ensures var reply := Dispatch(req, users, freshId, hash);
      var gate := ValidateAdminRole(req.authorization, users);
      && (reply.response == Removed <==> gate == Allow)
      && (gate == Allow ==>
            var k := FindIndex(users, IdField, req.path.userId);
            users[k].id == req.path.userId && reply.users == users[..k] + users[k + 1..])
      && (gate != Allow ==> reply == Reply(Denied(gate), users))
  {
    var id := req.path.userId;
    DispatchMember(req, users, freshId, hash);
    MemberDelete(id, req.authorization, WithUserId(req.body, id), users, freshId, hash);
    DeleteReply(Dispatch(req, users, freshId, hash), id, req.authorization, users);
  }

  /** What the DELETE row's reply says about an existing id. */
  lemma DeleteReply(reply: Reply, id: string, auth: Option<string>, users: seq<UserDto>)
    requires HasId(users, id)
    requires var gate := ValidateAdminRole(auth, users);
      reply == if gate == Allow then Reply(Removed, RemoveUser(users, id)) else Reply(Denied(gate), users)
    ensures var gate := ValidateAdminRole(auth, users);
      && (reply.response == Removed <==> gate == Allow)
      && (gate == Allow ==>
            var k := FindIndex(users, IdField, id);
            users[k].id == id && reply.users == users[..k] + users[k + 1..])
      && (gate != Allow ==> reply == Reply(Denied(gate), users))
  {
  }

  /** The DELETE row of the member table: the admin gate, then the splice. */
  lemma MemberDelete(id: string, auth: Option<string>, body: PartialUser, users: seq<UserDto>,
                     freshId: string, hash: string -> string)
    ensures var gate := ValidateAdminRole(auth, users);
      MemberTable(DELETE, id, auth, body, users, freshId, hash) ==
        if gate == Allow then Reply(Removed, RemoveUser(users, id)) else Reply(Denied(gate), users)
  {
    if ValidateAdminRole(auth, users) == Allow {
      PerformRemove(id, body, users, freshId, hash);
    }
  }

  /** The remove handler answers 204 over the store's splice. */
  lemma PerformRemove(id: string, body: PartialUser, users: seq<UserDto>, freshId: string, hash: string -> string)
    ensures Perform(Remove(id), body, users, freshId, hash) == Reply(Removed, RemoveUser(users, id))
  {
  }

  /** PUT /users/:userId on an existing id: 400 without email and password;
      a GUEST role makes the handler throw with the store untouched; otherwise
      the record at that id becomes the reshaped payload. */
  lemma PutChecks(req: HttpRequest, users: seq<UserDto>, freshId: string, hash: string -> string)
    requires req.verb == PUT && req.path.UserPath? && HasId(users, req.path.userId)
    requires Truthy(req.authorization)
    ensures var b, id := req.body, req.path.userId;
      Dispatch(req, users, freshId, hash) ==
        if !Truthy(b.email) || !Truthy(b.password) then Reply(Denied(BadRequest), users)
        else if b.permissionLevel == Some(GUEST) then Reply(Threw, users)
        else
          var record := UserDto(id, b.email.value, hash(b.password.value), b.lastName, None, b.permissionLevel);
          Reply(Updated(id + " updated via put"), PutUser(users, record))
  {
    DispatchMember(req, users, freshId, hash);
    MemberPut(req.path.userId, req.authorization, req.body, users, freshId, hash);
  }

  /** The PUT row of the member table, with the body carrying the path's id. */
  lemma MemberPut(id: string, auth: Option<string>, b: PartialUser, users: seq<UserDto>,
                  freshId: string, hash: string -> string)
    ensures MemberTable(PUT, id, auth, WithUserId(b, id), users, freshId, hash) ==
        if !Truthy(b.email) || !Truthy(b.password) then Reply(Denied(BadRequest), users)
        else if b.permissionLevel == Some(GUEST) then Reply(Threw, users)
        else
          var record := UserDto(id, b.email.value, hash(b.password.value), b.lastName, None, b.permissionLevel);
          Reply(Updated(id + " updated via put"), PutUser(users, record))
  {
  }

  /** PATCH /users/:userId on an existing id has no role check on the caller
      or on any field: whoever calls, the record with that id becomes its
      merge with the body (password hashed when truthy), a GUEST or ADMIN
      permissionLevel included; every other record is kept. */
  lemma PatchHasNoRoleCheck(req: HttpRequest, users: seq<UserDto>, freshId: string, hash: string -> string)
    requires req.verb == PATCH && req.path.UserPath? && HasId(users, req.path.userId)
    requires Truthy(req.authorization)
    ensures var reply := Dispatch(req, users, freshId, hash);
      var id := req.path.userId;
      var k := FindIndex(users, IdField, id);
      && |reply.users| == |users|
      && reply.users[k] == Merge(users[k], HashedPatch(req.body, hash))
      && reply.users[k].id == id
      && (req.body.permissionLevel.Some? ==> reply.users[k].permissionLevel == req.body.permissionLevel)
      && (req.body.email.Some? ==> reply.users[k].email == req.body.email.value)
      && (forall j :: 0 <= j < |users| && j != k && users[j].id != id ==> reply.users[j] == users[j])
      && reply.response == Patched(Some(reply.users[k]))
  {
    DispatchMember(req, users, freshId, hash);
    var id := req.path.userId;
    var k := FindIndex(users, IdField, id);
    var patch := HashedPatch(WithUserId(req.body, id), hash);
    assert Merge(users[k], patch) == Merge(users[k], HashedPatch(req.body, hash));
    PatchedLookup(users, id, patch);
  }

  /** Only a created, updated, patched or removed answer changes the store. */
  lemma OnlyHandlersChangeStore(req: HttpRequest, users: seq<UserDto>, freshId: string, hash: string -> string)
    ensures var reply := Dispatch(req, users, freshId, hash);
      !(reply.response.Created? || reply.response.Updated? || reply.response.Patched? || reply.response.Removed?)
      ==> reply.users == users
  {
    DispatchIsDecisionTable(req, users, freshId, hash);
  }

  /** Every controller action keeps the ids distinct, given a fresh id for
      creation; a put or remove of an absent id included. */
  lemma PerformKeepsDistinctIds(handler: Handler, body: PartialUser, users: seq<UserDto>,
                                freshId: string, hash: string -> string)
    requires DistinctIds(users) && !HasId(users, freshId)
    ensures DistinctIds(Perform(handler, body, users, freshId, hash).users)
  {
    var reply := Perform(handler, body, users, freshId, hash);
    match handler
    case Create =>
      if reply.response.Created? {
        AddKeepsDistinctIds(users, reply.response.user);
      }
    case Remove(id) => RemoveKeepsDistinctIds(users, id);
    case Put(id) =>
      var payload := HashedRecord(body, body.id.GetOr(id), hash);
      if payload.Some? && UpdateRecord(id, payload.value).Success? {
        PutKeepsDistinctIds(users, UpdateRecord(id, payload.value).value);
      }
    case Patch(id) => PatchKeepsDistinctIds(users, id, HashedPatch(body, hash));
    case _ =>
  }

  /** Running any steps keeps the ids distinct, given a fresh id for
      creation. */
  lemma {:induction false} RunKeepsDistinctIds(steps: seq<Step>, authorization: Option<string>, body: PartialUser,
                                               users: seq<UserDto>, freshId: string, hash: string -> string)
    requires DistinctIds(users) && !HasId(users, freshId)
    ensures DistinctIds(Run(steps, authorization, body, users, freshId, hash).users)
    decreases |steps|
  {
    if steps != [] {
      match steps[0]
      case SetBodyId(id) =>
        RunKeepsDistinctIds(steps[1..], authorization, WithUserId(body, id), users, freshId, hash);
      case Check(gate) =>
        if Evaluate(gate, authorization, body, users) == Allow {
          RunKeepsDistinctIds(steps[1..], authorization, body, users, freshId, hash);
        }
      case Handle(handler) =>
        PerformKeepsDistinctIds(handler, body, users, freshId, hash);
    }
  }

  /** Every request keeps the ids distinct, given a fresh id for creation. */
  lemma DispatchKeepsDistinctIds(req: HttpRequest, users: seq<UserDto>, freshId: string, hash: string -> string)
    requires DistinctIds(users) && !HasId(users, freshId)
    ensures DistinctIds(Dispatch(req, users, freshId, hash).users)
  {
    RunKeepsDistinctIds(Steps(req.verb, req.path), req.authorization, req.body, users, freshId, hash);
  }

  /** On the seeded store: the ADMIN deleting an absent id gets 404, and the
      GUEST caller "1" reads the record of "2", since reads have no role
      check. */
  lemma SeedScenarios(body: PartialUser, freshId: string, hash: string -> string)
    ensures Dispatch(HttpRequest(DELETE, UserPath("999"), Some("Bearer 3"), body), Seed(), freshId, hash).response
            == Denied(NotFound)
    ensures Dispatch(HttpRequest(GET, UserPath("2"), Some("Bearer 1"), body), Seed(), freshId, hash).response
            == Found(Seed()[1])
  {
    var users := Seed();
    assert !HasId(users, "999");
    AbsentIdIsNotFound(HttpRequest(DELETE, UserPath("999"), Some("Bearer 3"), body), users, freshId, hash);
    var read := HttpRequest(GET, UserPath("2"), Some("Bearer 1"), body);
    assert users[1].id == "2";
    FindByIdIsMembership(users, "2", users[1]);
    DispatchIsDecisionTable(read, users, freshId, hash);
  }
}
