/** Conversions between the `User` model class and the `UserDto` record
    (UserConverter), and the truthiness-filtered patch builder. */
module UserConverter {
  import opened Users

  /** The `User` model class: the same six fields as a stored record. */
  datatype User = User(
    id: string,
    email: string,
    password: string,
    firstName: Option<string>,
    lastName: Option<string>,
    permissionLevel: Option<Role>)

  function ToDto(user: User): (dto: UserDto)
    ensures dto.id == user.id && dto.email == user.email && dto.password == user.password
    ensures dto.firstName == user.firstName && dto.lastName == user.lastName
    ensures dto.permissionLevel == user.permissionLevel
  {
    UserDto(user.id, user.email, user.password, user.firstName, user.lastName, user.permissionLevel)
  }

  function ToModel(dto: UserDto): (user: User)
    ensures user.id == dto.id && user.email == dto.email && user.password == dto.password
    ensures user.firstName == dto.firstName && user.lastName == dto.lastName
    ensures user.permissionLevel == dto.permissionLevel
  {
    User(dto.id, dto.email, dto.password, dto.firstName, dto.lastName, dto.permissionLevel)
  }

  /** The two conversions are inverse to each other. */
  lemma ModelDtoRoundTrip(dto: UserDto, user: User)
    ensures ToDto(ToModel(dto)) == dto
    ensures ToModel(ToDto(user)) == user
  {
  }

  /** A string field is kept by `...(v && { f: v })` exactly when it is truthy. */
  function KeepTruthy(v: Option<string>): (r: Option<string>)
    ensures r.Some? <==> Truthy(v)
    ensures r.Some? ==> r == v
  {
    if Truthy(v) then v else None
  }

  /** `toPatchModel`: a field is included exactly when its value is truthy
      (an empty string is dropped), included values are copied unchanged,
      and the id is never included. A present role is a non-empty enum string,
      so it is always kept. */
  function ToPatchModel(dto: PartialUser): (patch: PartialUser)
    ensures patch.id == None
    ensures patch.email.Some? <==> Truthy(dto.email)
    ensures patch.password.Some? <==> Truthy(dto.password)
    ensures patch.firstName.Some? <==> Truthy(dto.firstName)
    ensures patch.lastName.Some? <==> Truthy(dto.lastName)
    ensures patch.permissionLevel == dto.permissionLevel
    ensures patch.email.Some? ==> patch.email == dto.email
    ensures patch.password.Some? ==> patch.password == dto.password
    ensures patch.firstName.Some? ==> patch.firstName == dto.firstName
    ensures patch.lastName.Some? ==> patch.lastName == dto.lastName
  {
    PartialUser(
      None,
      KeepTruthy(dto.email),
      KeepTruthy(dto.password),
      KeepTruthy(dto.firstName),
      KeepTruthy(dto.lastName),
      dto.permissionLevel)
  }

  /** Building a patch twice is building it once. */
  lemma ToPatchModelIdempotent(dto: PartialUser)
    ensures ToPatchModel(ToPatchModel(dto)) == ToPatchModel(dto)
  {
  }

  /** `users.map(toDto)`. */
  function ToDtoArray(users: seq<User>): (dtos: seq<UserDto>)
    ensures |dtos| == |users|
    ensures forall i :: 0 <= i < |users| ==> dtos[i] == ToDto(users[i])
  {
    seq(|users|, i requires 0 <= i < |users| => ToDto(users[i]))
  }

  /** `dtos.map(toModel)`. */
  function ToModelArray(dtos: seq<UserDto>): (users: seq<User>)
    ensures |users| == |dtos|
    ensures forall i :: 0 <= i < |dtos| ==> users[i] == ToModel(dtos[i])
  {
    seq(|dtos|, i requires 0 <= i < |dtos| => ToModel(dtos[i]))
  }

  /** The array conversions are inverse to each other, element by element
      and in order. */
  lemma ArrayRoundTrip(dtos: seq<UserDto>, users: seq<User>)
    ensures ToDtoArray(ToModelArray(dtos)) == dtos
    ensures ToModelArray(ToDtoArray(users)) == users
  {
  }
}
