/** Shared data model of the user directory: roles, stored records, partial
    records (request bodies and patches) and the outcome of an access or
    validation gate. */
module Users {

  datatype Option<+T> = None | Some(value: T)
  {
    /** JavaScript's `a ?? b` when the fallback is itself optional. */
    function OrElse(other: Option<T>): Option<T>
    {
      if Some? then this else other
    }

    /** JavaScript's `a ?? b` when the fallback is a plain value. */
    function GetOr(default: T): T
    {
      if Some? then value else default
    }
  }

  /** The three-tier role enumeration. Its definition is not part of this
      model; the roles are taken to be the non-empty strings 'GUEST', 'USER'
      and 'ADMIN' that the integration tests send, so a present role is
      truthy. */
  datatype Role = GUEST | USER | ADMIN

  /** A stored user record (UserDto). `permissionLevel` is optional because
      creation copies whatever the request body carries, which may be nothing. */
  datatype UserDto = UserDto(
    id: string,
    email: string,
    password: string,
    firstName: Option<string>,
    lastName: Option<string>,
    permissionLevel: Option<Role>)

  /** A record whose every field may be missing: a JSON request body, a
      `Partial<UserDto>` patch, a `UserDtoPatch`. */
  datatype PartialUser = PartialUser(
    id: Option<string>,
    email: Option<string>,
    password: Option<string>,
    firstName: Option<string>,
    lastName: Option<string>,
    permissionLevel: Option<Role>)

  /** JavaScript truthiness of an optional string: present and non-empty. */
  predicate Truthy(s: Option<string>)
  {
    s.Some? && s.value != ""
  }

  /** What one middleware gate decides: pass the request on, or answer with
      an error status. */
  datatype Outcome =
    | Allow
    | Unauthenticated // 401
    | Forbidden       // 403
    | NotFound        // 404
    | BadRequest      // 400
}
