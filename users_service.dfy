/** The service layer (UsersService): thin delegations to the store, plus the
    GUEST guard and record reshaping of `updateById`. */
module UsersService {
  import opened Users
  import opened Dao

  /** The one error the service raises: `updateById` throws on a GUEST role. */
  datatype ServiceError = GuestsNotAllowed

  datatype Result<+T> = Success(value: T) | Failure(error: ServiceError)

  /** The record `updateById` hands to `putUserById`: the payload without its
      lastName, with firstName set to the payload's lastName and the id set to
      the path id. A GUEST payload is refused. */
  function UpdateRecord(resourceId: string, resource: UserDto): (r: Result<UserDto>)
    ensures r.Failure? <==> resource.permissionLevel == Some(GUEST)
    ensures r.Success? ==>
      && r.value.id == resourceId
      && r.value.email == resource.email
      && r.value.password == resource.password
      && r.value.permissionLevel == resource.permissionLevel
      && r.value.firstName == resource.lastName
      && r.value.lastName == None
  {
    if resource.permissionLevel == Some(GUEST) then Failure(GuestsNotAllowed)
    else
      var rest := resource.(lastName := None);
      Success(rest.(firstName := resource.lastName, id := resourceId))
  }

  /** The payload's firstName never reaches the store: the stored firstName
      is the payload's lastName, whatever firstName said. */
  lemma UpdateDiscardsFirstName(resourceId: string, resource: UserDto)
    requires resource.permissionLevel != Some(GUEST)
    requires resource.firstName != resource.lastName
    ensures UpdateRecord(resourceId, resource).value.firstName != resource.firstName
  {
  }

  /** Any id carried by the payload is overridden by the path id. */
  lemma UpdateIgnoresPayloadId(resourceId: string, resource: UserDto, otherId: string)
    ensures UpdateRecord(resourceId, resource) == UpdateRecord(resourceId, resource.(id := otherId))
  {
  }

  /** After a successful update of an existing record, reading that id back
      gives the reshaped record and the store keeps its size. */
  lemma UpdateThenRead(users: seq<UserDto>, resourceId: string, resource: UserDto)
    requires DistinctIds(users) && HasId(users, resourceId)
    requires resource.permissionLevel != Some(GUEST)
    ensures var stored := PutUser(users, UpdateRecord(resourceId, resource).value);
      && |stored| == |users|
      && FindById(stored, resourceId) == Some(UpdateRecord(resourceId, resource).value)
  {
    var rec := UpdateRecord(resourceId, resource).value;
    var stored := PutUser(users, rec);
    PutKeepsDistinctIds(users, rec);
    var k := FindIndex(users, IdField, resourceId);
    assert stored[k] == rec;
    FindByIdIsMembership(stored, resourceId, rec);
  }

  method Create(dao: UsersDao, resource: UserDto, freshId: string) returns (user: UserDto)
    requires dao.Valid() && !HasId(dao.users, freshId)
    modifies dao
    ensures dao.Valid()
    ensures user == resource.(id := freshId)
    ensures dao.users == old(dao.users) + [user]
  {
    user := dao.AddUser(resource, freshId);
  }

  method DeleteById(dao: UsersDao, resourceId: string) returns (message: string)
    requires dao.Valid()
    modifies dao
    ensures dao.Valid()
    ensures dao.users == RemoveUser(old(dao.users), resourceId)
    ensures message == resourceId + " removed"
  {
    message := dao.RemoveUserById(resourceId);
  }

  /** `list` ignores its paging arguments and returns every record. */
  method List(dao: UsersDao, limit: int, page: int) returns (users: seq<UserDto>)
    ensures users == dao.users
  {
    users := dao.GetUsers();
  }

  method PatchById(dao: UsersDao, resourceId: string, resource: PartialUser) returns (r: Option<UserDto>)
    requires dao.Valid()
    modifies dao
    ensures dao.Valid()
    ensures dao.users == PatchUsers(old(dao.users), resourceId, resource)
    ensures r == FindById(dao.users, resourceId)
    ensures r.Some? <==> HasId(old(dao.users), resourceId)
  {
    r := dao.PatchUserById(resourceId, resource);
    PatchedLookup(old(dao.users), resourceId, resource);
  }

  method ReadById(dao: UsersDao, resourceId: string) returns (r: Option<UserDto>)
    ensures r == FindById(dao.users, resourceId)
  {
    r := dao.GetUserById(resourceId);
  }

  /** `updateById`: throws on a GUEST payload before touching the store,
      otherwise puts the reshaped record. */
  method UpdateById(dao: UsersDao, resourceId: string, resource: UserDto) returns (r: Result<string>)
    requires dao.Valid()
    modifies dao
    ensures dao.Valid()
    ensures r.Failure? <==> resource.permissionLevel == Some(GUEST)
    ensures r.Failure? ==> dao.users == old(dao.users)
    ensures r.Success? ==>
      && dao.users == PutUser(old(dao.users), UpdateRecord(resourceId, resource).value)
      && r.value == resourceId + " updated via put"
  {
    var record := UpdateRecord(resourceId, resource);
    if record.Failure? {
      return Failure(record.error);
    }
    var message := dao.PutUserById(record.value);
    r := Success(message);
  }

  method GetUserByEmail(dao: UsersDao, email: string) returns (r: Option<UserDto>)
    ensures r == FindByEmail(dao.users, email)
  {
    r := dao.GetUserByEmail(email);
  }
}
