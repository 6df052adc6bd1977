/** The bearer-token gates (AuthMiddleware). The caller's identity is the
    token itself: a user id looked up in the store. Both gates only read the
    store, so they are functions of the Authorization header and a snapshot of
    the records. */
module AuthMiddleware {
  import opened Users
  import opened Strings
  import opened Dao

  const BearerPrefix: string := "Bearer "

  /** `extractUserId`: null unless the header starts with "Bearer ";
      otherwise the second piece of the header split on spaces. */
  function BearerToken(authorization: Option<string>): (token: Option<string>)
    ensures token.None? <==> authorization.None? || !StartsWith(authorization.value, BearerPrefix)
    ensures token.Some? ==> ' ' !in token.value
    ensures token.Some? ==> token.value == Split(authorization.value[|BearerPrefix|..], ' ')[0]
  {
    if authorization.None? || !StartsWith(authorization.value, BearerPrefix) then None
    else
      var header := authorization.value;
      assert header == "Bearer" + [' '] + header[|BearerPrefix|..];
      SplitAtFirstSeparator("Bearer", ' ', header[|BearerPrefix|..]);
      Some(Split(header, ' ')[1])
  }

  /** "Bearer t" with a space-free `t` yields exactly `t`. */
  lemma BearerTokenOfSpaceFree(t: string)
    requires ' ' !in t
    ensures BearerToken(Some(BearerPrefix + t)) == Some(t)
  {
    var header := BearerPrefix + t;
    assert header[|BearerPrefix|..] == t;
    assert StartsWith(header, BearerPrefix);
    SplitWithoutSeparator(t, ' ');
  }

  /** The caller is authenticated when the extracted token is truthy. */
  predicate Authenticated(authorization: Option<string>)
  {
    Truthy(BearerToken(authorization))
  }

  /** The record the caller's token resolves to, through `readById`. */
  function Caller(authorization: Option<string>, users: seq<UserDto>): Option<UserDto>
    requires Authenticated(authorization)
  {
    FindById(users, BearerToken(authorization).value)
  }

  /** `validateAdminRole`: 401 without a token, 403 unless the token resolves
      to a record whose role is ADMIN. */
  function ValidateAdminRole(authorization: Option<string>, users: seq<UserDto>): (r: Outcome)
    ensures r == Allow || r == Unauthenticated || r == Forbidden
    ensures r == Unauthenticated <==> !Authenticated(authorization)
    ensures r == Allow <==>
      && Authenticated(authorization)
      && HasId(users, BearerToken(authorization).value)
      && Caller(authorization, users).value.permissionLevel == Some(ADMIN)
  {
    var userId := BearerToken(authorization);
    if !Truthy(userId) then Unauthenticated
    else
      var user := FindById(users, userId.value);
      if user.None? || user.value.permissionLevel != Some(ADMIN) then Forbidden
      else Allow
  }

  /** `validateUserPermissions`: 401 without a token, 403 when the token
      resolves to nothing or to a GUEST record; any other resolved record
      passes, including one with no role. */
  function ValidateUserPermissions(authorization: Option<string>, users: seq<UserDto>): (r: Outcome)
    ensures r == Allow || r == Unauthenticated || r == Forbidden
    ensures r == Unauthenticated <==> !Authenticated(authorization)
    ensures r == Allow <==>
      && Authenticated(authorization)
      && HasId(users, BearerToken(authorization).value)
      && Caller(authorization, users).value.permissionLevel != Some(GUEST)
  {
    var userId := BearerToken(authorization);
    if !Truthy(userId) then Unauthenticated
    else
      var user := FindById(users, userId.value);
      if user.None? || user.value.permissionLevel == Some(GUEST) then Forbidden
      else Allow
  }

  /** Every caller the admin gate lets through, the user gate lets through. */
  lemma AdminPassesUserPermissions(authorization: Option<string>, users: seq<UserDto>)
    requires ValidateAdminRole(authorization, users) == Allow
    ensures ValidateUserPermissions(authorization, users) == Allow
  {
  }

  /** Whether a gate answers 401 depends on the header alone, never on the
      store. */
  lemma UnauthenticatedDependsOnHeaderOnly(authorization: Option<string>, users: seq<UserDto>, users': seq<UserDto>)
    ensures (ValidateAdminRole(authorization, users) == Unauthenticated) ==
            (ValidateUserPermissions(authorization, users') == Unauthenticated)
  {
  }

  /** A well-formed token that resolves to no record is 403 from both gates,
      never 401. */
  lemma UnknownCallerIsForbidden(authorization: Option<string>, users: seq<UserDto>)
    requires Authenticated(authorization) && !HasId(users, BearerToken(authorization).value)
    ensures ValidateAdminRole(authorization, users) == Forbidden
    ensures ValidateUserPermissions(authorization, users) == Forbidden
  {
  }

  /** Against a store with distinct ids, the admin gate is a membership test:
      it allows exactly the callers whose id belongs to a stored ADMIN record. */
  lemma AdminRoleIsMembership(t: string, users: seq<UserDto>)
    requires DistinctIds(users) && t != "" && ' ' !in t
    ensures ValidateAdminRole(Some(BearerPrefix + t), users) == Allow <==>
            exists u :: u in users && u.id == t && u.permissionLevel == Some(ADMIN)
  {
    BearerTokenOfSpaceFree(t);
    var found := FindById(users, t);
    if found.Some? {
      FindByIdIsMembership(users, t, found.value);
      forall u | u in users && u.id == t ensures u == found.value {
        FindByIdIsMembership(users, t, u);
      }
    }
  }

  /** The seeded callers: "1" (GUEST) is refused by both gates, "2" (USER)
      passes only the user gate, "3" (ADMIN) passes both. */
  lemma SeedCallers()
    ensures ValidateUserPermissions(Some("Bearer 1"), Seed()) == Forbidden
    ensures ValidateAdminRole(Some("Bearer 1"), Seed()) == Forbidden
    ensures ValidateUserPermissions(Some("Bearer 2"), Seed()) == Allow
    ensures ValidateAdminRole(Some("Bearer 2"), Seed()) == Forbidden
    ensures ValidateUserPermissions(Some("Bearer 3"), Seed()) == Allow
    ensures ValidateAdminRole(Some("Bearer 3"), Seed()) == Allow
  {
    BearerTokenOfSpaceFree("1");
    BearerTokenOfSpaceFree("2");
    BearerTokenOfSpaceFree("3");
    assert BearerPrefix + "1" == "Bearer 1";
    assert BearerPrefix + "2" == "Bearer 2";
    assert BearerPrefix + "3" == "Bearer 3";
  }
}
